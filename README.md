# SendGridCore: JSON generator and message constructor

This project models two parts of SendGridCore, a small .NET client for the
SendGrid v3 mail API, and proves properties of the models in Dafny.

**The JSON generator** (`JsonGenerator.cs`, module `JsonGenerator` in
`json_generator.dfy`). It serialises a tree of values into JSON text, writing
everything into one `StringBuilder`. The values are null, strings, numbers,
booleans, arrays and string-keyed dictionaries. There are two modes, selected
by a level:

- `-1` means minified: no whitespace is added.
- `0, 1, 2, …` means pretty at that nesting depth. Each child goes on its own
  line, indented four spaces deeper than its container. `": "` follows each
  key, and the closing bracket sits on its own line.

A pretty document ends with one line break. Strings and keys are written
between double quotes exactly as they are, with no escaping.

The numbers accepted are exactly ten .NET types: `float`, `double`, `int`,
`uint`, `short`, `ushort`, `long`, `ulong`, `byte` and `sbyte`. A value of any
other runtime type throws a `FormatException`, and no text is returned. This
includes `decimal`, `char`, `nint`, `nuint` and `Half`.

The exception names the member's path: `<root>`, extended by `.key` for each
entry and `[i]` for each element.

The model:

- `StringBuilder` is a class with a `text` field.
- Private `Stringify`, `StringifyObject` and `StringifyArray` are methods
  that append to it. `StringifyObject` keeps the `n`/`nMax` counter loop and
  `StringifyArray` keeps the `for` loop.
- Each method is proved against a pure specification: `ValueText`,
  `EntriesText` and `ElementsText`, where the last two cover the first `k`
  iterations of their loop.
- The exception is the `Err` case of a `Result`.

Module `JsonReference` (`json_reference.dfy`) describes the same output
independently of the loops:

- `Compact` and `Pretty` are layouts built with `Join`.
- `Culprit` finds the first unsupported member in document order.
- `ValueTextMatches` proves that the generator's text is exactly this
  description.
- From it follow the document-level results: the pretty default, the
  trailing line break, failure exactly on unsupported trees, and that pretty output equals minified output
  once whitespace is removed.

**The message constructor** (`Message.cs`, module `Messages` in
`message.dfy`). A `Message` is an immutable value: a sender, the `to`, `cc`
and `bcc` recipient arrays, a subject and a body. The constructor:

- throws if the sender is invalid;
- then throws if `to` is null or empty;
- otherwise drops an empty `cc`/`bcc` and a null-or-blank subject/body
  (setting them to null), and keeps everything else as given.

`NewMessage` reassigns its parameters step by step, as the constructor does.
It is proved equal to the function `Construct`. Properties proved about
`Construct`:

- the order of the errors;
- success exactly on the arguments that form a valid message (`IsValid`);
- that every built message is valid and normalised;
- that rebuilding a built message from its own fields changes nothing.

Two things about endpoints and whitespace:

- The endpoint type is a type parameter `E`. Endpoint validity is a
  predicate passed in, because `MessageEndPoint` is not part of this model.
- The white-space character class is a predicate passed in too. Null
  arrays and strings are `None`.

## Model

| member | source | states |
|---|---|---|
| JsonGenerator.Document | src/SendGridCore/JsonGenerator.cs:34-41 | The public result: the root's text, followed by one line break when pretty, or the root's error. The member named by a failure always starts with `<root>`. A pretty result always ends with a line break. |
| JsonGenerator.ValueText | src/SendGridCore/JsonGenerator.cs:43-83 | What the private `Stringify` appends for a value, or the exception it throws. A failure always names `memberName` or a member below it. |
| JsonGenerator.EntriesText | src/SendGridCore/JsonGenerator.cs:90-129 | What the first `k` iterations of the `foreach` append, or the first failing entry's exception. A failure always names a member below the object's path. |
| JsonGenerator.ElementsText | src/SendGridCore/JsonGenerator.cs:131-161 | What the first `k` iterations of the `for` loop append, or the first failing element's exception. A failure always names a member below the array's path. |
| JsonGenerator.Error.Message | src/SendGridCore/JsonGenerator.cs:82 | Gives the `FormatException` text only; nothing in the model reads it. The text ends with the failing member's path between single quotes. |
| JsonGenerator.StringifyDefault | src/SendGridCore/JsonGenerator.cs:23-26 | The one-argument overload gives exactly the result of the pretty (not minified) call. |
| JsonGenerator.Stringify | src/SendGridCore/JsonGenerator.cs:34-41 | Starts a fresh builder. Serialises the root as `<root>` at level -1 (minified) or 0 (pretty). Appends one line break only when pretty. An exception propagates and no text is returned. |
| JsonGenerator.StringifyValue | src/SendGridCore/JsonGenerator.cs:43-83 | For a supported value, appends exactly that value's text after what the builder held, and reports no error. For an unsupported member, reports that member's error. |
| JsonGenerator.StringifyObject | src/SendGridCore/JsonGenerator.cs:90-129 | Appends `{`, the entries in order, and the closing frame. This is the object's text. Alternatively it stops with the error of the first entry that fails. |
| JsonGenerator.StringifyArray | src/SendGridCore/JsonGenerator.cs:131-161 | Appends `[`, the elements in index order, and the closing frame. This is the array's text. Alternatively it stops with the error of the first element that fails. |
| JsonGenerator.EntryAppended | src/SendGridCore/JsonGenerator.cs:100-120 | One iteration of the `foreach` extends the built text by exactly entry `n`'s text: indentation, quoted key, `:`, a space if pretty, the value, and a comma (plus a line break if pretty) unless it is the last entry. |
| JsonGenerator.ElementAppended | src/SendGridCore/JsonGenerator.cs:139-152 | One iteration of the `for` loop extends the built text by exactly element `i`'s text, with the same separator rule. |
| JsonGenerator.ContainerClosed | src/SendGridCore/JsonGenerator.cs:122-128 | After the loop, the builder holds the opening bracket, a line break if pretty, the children, a line break if pretty, `level*4` spaces if `level > 0`, and the closing bracket. |
| JsonGenerator.EntryFailed | src/SendGridCore/JsonGenerator.cs:110 | If an entry's value fails, the whole object fails with that member's error. |
| JsonGenerator.ElementFailed | src/SendGridCore/JsonGenerator.cs:144 | If an element fails, the whole array fails with that member's error. |
| JsonGenerator.EntriesErrorPersists | src/SendGridCore/JsonGenerator.cs:100-120 | The loop never resumes after a failure. If the first `j` entries fail, every longer prefix fails with the same error. |
| JsonGenerator.ElementsErrorPersists | src/SendGridCore/JsonGenerator.cs:139-152 | The same for the elements of an array. |
| JsonGenerator.DecimalDigits | src/SendGridCore/JsonGenerator.cs:144 | The index in an element's path is non-empty, is made of decimal digits only, and has no leading zero. |
| JsonReference.DecimalRoundTrip | src/SendGridCore/JsonGenerator.cs:144 | The index written into an element's path reads back as that index. |
| JsonReference.ValueTextMatches | src/SendGridCore/JsonGenerator.cs:43-83 | The text of any value at any level is its pretty layout at that depth when `level >= 0`, or its minified layout when `level < 0`. If the value holds an unsupported member, the result is instead the error naming the first such member in document order. |
| JsonReference.EntriesTextMatches | src/SendGridCore/JsonGenerator.cs:90-129 | After `k` iterations the object loop has written the first `k` entry layouts joined by `,` (plus a line break if pretty), followed by a separator if more entries remain. Otherwise it has failed on the first unsupported entry. |
| JsonReference.ElementsTextMatches | src/SendGridCore/JsonGenerator.cs:131-161 | The same for the array loop and its elements. |
| JsonReference.Culprit | src/SendGridCore/JsonGenerator.cs:81-82 | There is no culprit exactly when the tree holds no unsupported value. A reported member path always extends the path of the value searched. |
| JsonReference.EntriesCulprit | src/SendGridCore/JsonGenerator.cs:100-120 | Among the first `k` entries there is no culprit exactly when all their values are supported. A reported path extends the object's path. |
| JsonReference.ElementsCulprit | src/SendGridCore/JsonGenerator.cs:139-152 | Among the first `k` elements there is no culprit exactly when all of them are supported. A reported path extends the array's path. |
| JsonReference.DocumentMatches | src/SendGridCore/JsonGenerator.cs:34-41 | `Stringify(json, isMinified)` fails exactly when the tree holds an unsupported value, with the first such member's error. Otherwise it returns the minified layout, or the pretty layout at depth 0 followed by exactly one line break. |
| JsonReference.ModesAgree | src/SendGridCore/JsonGenerator.cs:34-41 | Minified and pretty calls on the same tree either both fail with the same error, or both succeed with texts that are equal once all whitespace is removed. |
| JsonReference.PrettyStripsToCompact | src/SendGridCore/JsonGenerator.cs:90-161 | For every tree and depth, the pretty layout with its whitespace removed equals the minified layout with its whitespace removed. |
| JsonReference.ScalarText | src/SendGridCore/JsonGenerator.cs:45-55 | At every level: null is `null`, a boolean is `true`/`false`, a number is its formatted text, and a string is its characters between double quotes with no escaping. |
| JsonReference.EmptyContainers | src/SendGridCore/JsonGenerator.cs:90-129 | An empty container is `[]`/`{}` when minified. When pretty, it is the opening bracket, two line breaks, the closing bracket's indentation, and the closing bracket. |
| JsonReference.ExampleNestedMemberError | src/SendGridCore/JsonGenerator.cs:110 | An unsupported value under `meta.timestamp` makes the pretty call fail, naming `<root>.meta.timestamp`. |
| JsonReference.ExampleElementError | src/SendGridCore/JsonGenerator.cs:144 | An unsupported value in element 2 of `to`, after two supported elements, makes the minified call fail, naming `<root>.to[2].email`. |
| Messages.Message.IsValid | src/SendGridCore/Message.cs:47-53 | The sender is valid, and `to` is non-null and non-empty. It carries no contract of its own. `Construct` proves that it holds of every constructed message, and that construction succeeds exactly when it holds of the arguments. |
| Messages.MessageError.Message | src/SendGridCore/Message.cs:66-69 | Gives the two `InvalidOperationException` texts only; nothing in the model reads them. |
| Messages.ErrorTextsDistinct | src/SendGridCore/Message.cs:66-69 | The two exception texts are different, so the text tells which check failed. |
| Messages.Construct | src/SendGridCore/Message.cs:64-89 | See the list below. |
| Messages.NewMessage | src/SendGridCore/Message.cs:64-89 | The step-by-step constructor returns exactly what `Construct` specifies. |
| Messages.DropEmpty | src/SendGridCore/Message.cs:71-75 | A stored `cc`/`bcc` list is never empty. It is the given list, or null when the given list was empty. |
| Messages.DropBlank | src/SendGridCore/Message.cs:77-81 | A stored subject/body is never null-or-blank. It is the given text, or null when the given text was null or blank. |
| Messages.ConstructFixpoint | src/SendGridCore/Message.cs:47-53 | Rebuilding a message from its own fields gives back that message exactly when the message is valid (`IsValid`) and normalised. So the constructor's results are exactly the valid, normalised messages. |
| Messages.ConstructIdempotent | src/SendGridCore/Message.cs:71-81 | Building a message again from the fields of a built message changes nothing. |

What `Messages.Construct` states:

- It fails with the invalid-sender error when `from` is invalid, whatever else is given.
- Otherwise it fails with the missing-recipients error when `to` is null or empty.
- It succeeds exactly when the arguments form a message satisfying `IsValid`.
- A result is valid and normalised.
- A result keeps `from` and `to`.
- A result keeps each of `cc`, `bcc`, `subject` and `body` as given, or drops it to null. It drops a part only when the list was empty or the text was null or blank.

## Left out

- Numbers: `StringifyNumber` (`float.ToString` with the invariant culture)
  is the function parameter `format`.
  - The source converts every numeric type to a 32-bit float before
    formatting. This includes the narrowing of `double`, and `NaN` or
    infinities produce text that is not JSON.
  - These conversions are not modelled: a number is already a 32-bit float
    (`bv32`) when it enters the model.
  - Nothing is claimed about numeric precision.
- Platform newline: `AppendLine()` writes `Environment.NewLine`. The model
  fixes it to a line feed.
- Runtime type tests: the chain of `is` tests becomes a match on the `Value`
  datatype.
  - `Num` stands for the ten numeric types the chain tests: `float`,
    `double`, `int`, `uint`, `short`, `ushort`, `long`, `ulong`, `byte` and
    `sbyte`.
  - Every other type except string, boolean, `Array` and
    `IDictionary<string, object>` is the `Unsupported` case, carrying the
    name `GetType()` would print. This includes `decimal`, `char`, `nint`,
    `nuint` and `Half`.
- Arrays: only one-dimensional, zero-based arrays are modelled (`Arr` holds
  a sequence).
  - Every `System.Array` passes the `is Array` test. For a multi-dimensional
    or non-zero-based array, `GetValue(i)` throws `ArgumentException` or
    `IndexOutOfRangeException` after `[` has been written. That exception is
    not the `FormatException` and names no member path.
  - An empty multi-dimensional array prints `[]`.
  - None of this is modelled.
- Strings: a Dafny `string` is a sequence of Unicode scalar values, while a
  .NET string is a sequence of UTF-16 code units.
  - The source copies a lone surrogate through unchanged. Such a string has
    no counterpart in the model.
- Dictionary semantics: an object is the sequence of entries in the order
  `foreach` yields them. Enumeration order and duplicate keys are not
  modelled.
  - `nMax` is taken as the number of entries enumerated.
- References: arrays, dictionaries and the recipient arrays of `Message` are
  values, so aliasing and later mutation by the caller are not modelled.
  - Neither are cyclic structures, on which the source would recurse
    without end.
- Culture: the interpolated index in `$"{memberName}[{i}]"` is taken to
  print as plain decimal digits.
- Text of an unfinished call: when an exception escapes, the source's
  partial `StringBuilder` contents are discarded. The model returns only
  the error and says nothing about that partial text.
- `default(Message)`: a `Message` produced without the constructor is not
  modelled. Only constructed messages are guaranteed to satisfy `IsValid`.
- Not part of this model: `MessageEndPoint` (its validity is a predicate
  passed in), `MessageBuilder`, `HttpV3MessageSender`, the HTTP transport
  and the two console tester programs, which are network and console I/O.
- `string.IsNullOrWhiteSpace`: the Unicode white-space class is a predicate
  passed in. `IsNullOrWhiteSpace` is "null, or every character is white
  space".
