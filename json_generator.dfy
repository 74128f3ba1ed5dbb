/**
 * The JSON stringifier of SendGridCore (`JsonGenerator`).
 *
 * A value tree is walked recursively and its text is appended to one shared
 * string builder. The integer `level` selects the layout: a negative level is
 * minified output, a level L >= 0 is pretty output nested L levels deep with
 * four spaces per level.
 *
 * The functions `ValueText`, `ElementsText` and `EntriesText` follow the
 * recursion of the generator as written (the comma test `n < nMax - 1`, the
 * `level >= 0` and `level > 0` guards); the methods at the end are the
 * generator itself, appending to a `StringBuilder`, and are proved to append
 * exactly what those functions describe.
 */
module JsonGenerator {
  import opened Wrappers

  /** The bit pattern of a .NET `float` (IEEE 754 binary32). */
  type Float32 = bv32

  /** `StringifyNumber`: the culture-invariant text of a float; left abstract. */
  type NumberFormat = Float32 -> string

  /** The kinds of value the generator dispatches on. `Unsupported` is every
      other runtime type; `kind` is the name `GetType()` would print. */
  datatype Value =
    | Null
    | Str(s: string)
    | Num(x: Float32)
    | Bool(b: bool)
    | Arr(elements: seq<Value>)
    | Obj(entries: seq<KeyValue>)
    | Unsupported(kind: string)

  /** An entry of the dictionary, as `foreach` yields it. */
  datatype KeyValue = KeyValue(key: string, value: Value)

  /** The `FormatException` thrown for a value of an unsupported kind. */
  datatype Error = UnsupportedType(kind: string, member: string)
  {
    /** The exception's message text, which ends by naming the member
        between single quotes. */
    function Message(): (r: string)
      ensures |r| >= |member| + 2 && r[|r| - |member| - 2..] == "'" + member + "'"
    {
      "Invalid type (" + kind + ") for member '" + member + "'"
    }
  }

  /** Spaces added per nesting level in pretty mode. */
  const Indentation: nat := 4

  /** The text of `AppendLine()`; the platform newline is fixed to a line feed. */
  const NewLine: string := "\n"

  /** The member name given to the root value. */
  const RootName: string := "<root>"

  /** `new string(' ', n)`. */
  function Spaces(n: nat): (r: string)
    ensures |r| == n
    ensures forall i :: 0 <= i < n ==> r[i] == ' '
  {
    if n == 0 then "" else Spaces(n - 1) + " "
  }

  /** A string between double quotes, unescaped, as `"\"{0}\""` formats it. */
  function Quote(s: string): string
  {
    "\"" + s + "\""
  }

  /** The decimal text of a non-negative index, as string interpolation prints it. */
  function DecimalDigits(n: nat): (r: string)
    ensures |r| > 0
    ensures forall i :: 0 <= i < |r| ==> '0' <= r[i] <= '9'
    ensures |r| > 1 ==> r[0] != '0'
  {
    if n < 10 then [Digit(n)] else DecimalDigits(n / 10) + [Digit(n % 10)]
  }

  function Digit(d: nat): (c: char)
    requires d < 10
    ensures '0' <= c <= '9'
    ensures (c as int) - ('0' as int) == d
  {
    (('0' as int) + d) as char
  }

  /** The member name of an object entry: `parent.key`. */
  function MemberPath(parent: string, key: string): string
  {
    parent + "." + key
  }

  /** The member name of an array element: `parent[i]`. */
  function IndexPath(parent: string, i: nat): string
  {
    parent + "[" + DecimalDigits(i) + "]"
  }

  /** An `AppendLine()` guarded by `level >= 0`. */
  function LineBreak(level: int): string
  {
    if level >= 0 then NewLine else ""
  }

  /** The indentation written before each child of a container at `level`. */
  function Indent(level: int): string
  {
    if level >= 0 then Spaces((level + 1) * Indentation) else ""
  }

  /** The space written after `:` in pretty mode. */
  function ColonSpace(level: int): string
  {
    if level >= 0 then " " else ""
  }

  /** The level passed to children: one deeper when pretty, unchanged when minified. */
  function ChildLevel(level: int): int
  {
    if level >= 0 then level + 1 else level
  }

  /** What follows child number `n` of `nMax`: a comma (and a line break when
      pretty) unless it is the last one. */
  function Separator(n: nat, nMax: nat, level: int): string
  {
    if n < nMax - 1 then "," + LineBreak(level) else ""
  }

  /** What precedes the closing bracket of a container at `level`. */
  function Closing(level: int): string
  {
    LineBreak(level) + (if level > 0 then Spaces(level * Indentation) else "")
  }

  /** The text the private `Stringify(sb, memberName, value, level)` appends,
      or the exception it throws. */
  function ValueText(value: Value, memberName: string, level: int, format: NumberFormat): (r: Result<string, Error>)
    ensures r.Err? ==> memberName <= r.error.member
    decreases value
  {
    match value
    case Null => Ok("null")
    case Str(s) => Ok(Quote(s))
    case Num(x) => Ok(format(x))
    case Bool(b) => Ok(if b then "true" else "false")
    case Arr(es) =>
      (match ElementsText(es, |es|, memberName, level, format)
       case Err(e) => Err(e)
       case Ok(body) => Ok("[" + LineBreak(level) + body + Closing(level) + "]"))
    case Obj(es) =>
      (match EntriesText(es, |es|, memberName, level, format)
       case Err(e) => Err(e)
       case Ok(body) => Ok("{" + LineBreak(level) + body + Closing(level) + "}"))
    case Unsupported(kind) => Err(UnsupportedType(kind, memberName))
  }

  /** A member named below a child's path is named below its parent's path. */
  lemma PrefixTransitive(path: string, child: string, member: string)
    requires path <= child && child <= member
    ensures path <= member
  {
    assert member[..|path|] == child[..|path|];
  }

  /** What the first `k` iterations of the loop of `StringifyArray` append. */
  function ElementsText(es: seq<Value>, k: nat, memberName: string, level: int, format: NumberFormat): (r: Result<string, Error>)
    requires k <= |es|
    ensures r.Err? ==> memberName <= r.error.member
    decreases es, k
  {
    if k == 0 then Ok("")
    else
      match ElementsText(es, k - 1, memberName, level, format)
      case Err(e) => Err(e)
      case Ok(prefix) =>
        match ValueText(es[k - 1], IndexPath(memberName, k - 1), ChildLevel(level), format)
        case Err(e) => PrefixTransitive(memberName, IndexPath(memberName, k - 1), e.member); Err(e)
        case Ok(item) => Ok(prefix + (Indent(level) + item + Separator(k - 1, |es|, level)))
  }

  /** What the first `k` iterations of the loop of `StringifyObject` append. */
  function EntriesText(es: seq<KeyValue>, k: nat, memberName: string, level: int, format: NumberFormat): (r: Result<string, Error>)
    requires k <= |es|
    ensures r.Err? ==> memberName <= r.error.member
    decreases es, k
  {
    if k == 0 then Ok("")
    else
      match EntriesText(es, k - 1, memberName, level, format)
      case Err(e) => Err(e)
      case Ok(prefix) =>
        match ValueText(es[k - 1].value, MemberPath(memberName, es[k - 1].key), ChildLevel(level), format)
        case Err(e) => PrefixTransitive(memberName, MemberPath(memberName, es[k - 1].key), e.member); Err(e)
        case Ok(item) => Ok(prefix + (Indent(level) + Quote(es[k - 1].key) + ":" + ColonSpace(level) + item + Separator(k - 1, |es|, level)))
  }

  /** The string the public `Stringify(json, isMinified)` returns, or its exception. */
  function Document(json: Value, isMinified: bool, format: NumberFormat): (r: Result<string, Error>)
    ensures r.Err? ==> RootName <= r.error.member
    ensures r.Ok? && !isMinified ==> |r.value| > 0 && r.value[|r.value| - 1] == '\n'
  {
    var text :- ValueText(json, RootName, if isMinified then -1 else 0, format);
    Ok(if isMinified then text else text + NewLine)
  }

  /** One more iteration of the loop of `StringifyObject`, when it succeeds. */
  lemma EntriesTextStep(es: seq<KeyValue>, n: nat, memberName: string, level: int, format: NumberFormat)
    requires n < |es|
    requires EntriesText(es, n, memberName, level, format).Ok?
    requires ValueText(es[n].value, MemberPath(memberName, es[n].key), ChildLevel(level), format).Ok?
    ensures EntriesText(es, n + 1, memberName, level, format)
            == Ok(EntriesText(es, n, memberName, level, format).value
                  + (Indent(level) + Quote(es[n].key) + ":" + ColonSpace(level)
                     + ValueText(es[n].value, MemberPath(memberName, es[n].key), ChildLevel(level), format).value
                     + Separator(n, |es|, level)))
  {
  }

  /** A failing child makes the next prefix of the entries fail with its error. */
  lemma EntriesTextStepError(es: seq<KeyValue>, n: nat, memberName: string, level: int, format: NumberFormat)
    requires n < |es|
    requires EntriesText(es, n, memberName, level, format).Ok?
    requires ValueText(es[n].value, MemberPath(memberName, es[n].key), ChildLevel(level), format).Err?
    ensures EntriesText(es, n + 1, memberName, level, format)
            == Err(ValueText(es[n].value, MemberPath(memberName, es[n].key), ChildLevel(level), format).error)
  {
  }

  /** One more iteration of the loop of `StringifyArray`, when it succeeds. */
  lemma ElementsTextStep(es: seq<Value>, i: nat, memberName: string, level: int, format: NumberFormat)
    requires i < |es|
    requires ElementsText(es, i, memberName, level, format).Ok?
    requires ValueText(es[i], IndexPath(memberName, i), ChildLevel(level), format).Ok?
    ensures ElementsText(es, i + 1, memberName, level, format)
            == Ok(ElementsText(es, i, memberName, level, format).value
                  + (Indent(level) + ValueText(es[i], IndexPath(memberName, i), ChildLevel(level), format).value
                     + Separator(i, |es|, level)))
  {
  }

  /** A failing child makes the next prefix of the elements fail with its error. */
  lemma ElementsTextStepError(es: seq<Value>, i: nat, memberName: string, level: int, format: NumberFormat)
    requires i < |es|
    requires ElementsText(es, i, memberName, level, format).Ok?
    requires ValueText(es[i], IndexPath(memberName, i), ChildLevel(level), format).Err?
    ensures ElementsText(es, i + 1, memberName, level, format)
            == Err(ValueText(es[i], IndexPath(memberName, i), ChildLevel(level), format).error)
  {
  }

  /** The text of an array from the text of its elements. */
  lemma ArrayText(es: seq<Value>, memberName: string, level: int, format: NumberFormat)
    ensures ValueText(Arr(es), memberName, level, format)
            == match ElementsText(es, |es|, memberName, level, format)
               case Ok(body) => Ok("[" + LineBreak(level) + body + Closing(level) + "]")
               case Err(e) => Err(e)
  {
  }

  /** The text of an object from the text of its entries. */
  lemma ObjectText(es: seq<KeyValue>, memberName: string, level: int, format: NumberFormat)
    ensures ValueText(Obj(es), memberName, level, format)
            == match EntriesText(es, |es|, memberName, level, format)
               case Ok(body) => Ok("{" + LineBreak(level) + body + Closing(level) + "}")
               case Err(e) => Err(e)
  {
  }

  /** A failing entry makes the whole object fail with its error. */
  lemma EntryFailed(es: seq<KeyValue>, n: nat, memberName: string, level: int, format: NumberFormat)
    requires n < |es|
    requires EntriesText(es, n, memberName, level, format).Ok?
    requires ValueText(es[n].value, MemberPath(memberName, es[n].key), ChildLevel(level), format).Err?
    ensures ValueText(Obj(es), memberName, level, format)
            == Err(ValueText(es[n].value, MemberPath(memberName, es[n].key), ChildLevel(level), format).error)
  {
    EntriesTextStepError(es, n, memberName, level, format);
    EntriesErrorPersists(es, n + 1, |es|, memberName, level, format);
    ObjectText(es, memberName, level, format);
  }

  /** A failing element makes the whole array fail with its error. */
  lemma ElementFailed(es: seq<Value>, i: nat, memberName: string, level: int, format: NumberFormat)
    requires i < |es|
    requires ElementsText(es, i, memberName, level, format).Ok?
    requires ValueText(es[i], IndexPath(memberName, i), ChildLevel(level), format).Err?
    ensures ValueText(Arr(es), memberName, level, format)
            == Err(ValueText(es[i], IndexPath(memberName, i), ChildLevel(level), format).error)
  {
    ElementsTextStepError(es, i, memberName, level, format);
    ElementsErrorPersists(es, i + 1, |es|, memberName, level, format);
    ArrayText(es, memberName, level, format);
  }

  /** Once a prefix of the entries fails, every longer prefix fails with the same error. */
  lemma {:induction false} EntriesErrorPersists(es: seq<KeyValue>, j: nat, k: nat, memberName: string, level: int, format: NumberFormat)
    requires j <= k <= |es|
    requires EntriesText(es, j, memberName, level, format).Err?
    ensures EntriesText(es, k, memberName, level, format) == EntriesText(es, j, memberName, level, format)
    decreases k
  {
    if j < k {
      EntriesErrorPersists(es, j, k - 1, memberName, level, format);
    }
  }

  /** Once a prefix of the elements fails, every longer prefix fails with the same error. */
  lemma {:induction false} ElementsErrorPersists(es: seq<Value>, j: nat, k: nat, memberName: string, level: int, format: NumberFormat)
    requires j <= k <= |es|
    requires ElementsText(es, j, memberName, level, format).Err?
    ensures ElementsText(es, k, memberName, level, format) == ElementsText(es, j, memberName, level, format)
    decreases k
  {
    if j < k {
      ElementsErrorPersists(es, j, k - 1, memberName, level, format);
    }
  }

  /** Concatenation regrouped. A separate lemma, so that the loop-step proofs
      below, whose contexts are large, get associativity for exactly the terms
      they need. */
  lemma Reassociate(x: string, y: string, z: string)
    ensures x + y + z == x + (y + z)
  {
  }

  /** What one successful iteration of the loop of `StringifyObject` appends,
      snapshot by snapshot, extends the entries so far by entry `n`. */
  lemma EntryAppended(es: seq<KeyValue>, n: nat, memberName: string, level: int, format: NumberFormat,
                      start: string, done: string, before: string, head: string, afterValue: string, after: string)
    returns (done': string)
    requires n < |es|
    requires EntriesText(es, n, memberName, level, format) == Ok(done)
    requires ValueText(es[n].value, MemberPath(memberName, es[n].key), ChildLevel(level), format).Ok?
    requires before == start + done
    requires head == if level >= 0 then before + Spaces((level + 1) * Indentation) + (Quote(es[n].key) + ":") + " "
                     else before + (Quote(es[n].key) + ":")
    requires afterValue == head + ValueText(es[n].value, MemberPath(memberName, es[n].key), ChildLevel(level), format).value
    requires after == if n < |es| - 1 then (if level >= 0 then afterValue + "," + NewLine else afterValue + ",")
                      else afterValue
    ensures EntriesText(es, n + 1, memberName, level, format) == Ok(done')
    ensures after == start + done'
  {
    var key, colon, sep := es[n].key, ColonSpace(level), Separator(n, |es|, level);
    var item := ValueText(es[n].value, MemberPath(memberName, key), ChildLevel(level), format).value;
    var mid := Indent(level) + (Quote(key) + ":") + colon;
    assert head == before + mid by {
      if level >= 0 {
        Reassociate(before, Spaces((level + 1) * Indentation), Quote(key) + ":");
        Reassociate(before, Spaces((level + 1) * Indentation) + (Quote(key) + ":"), " ");
      }
    }
    assert after == afterValue + sep by {
      if n < |es| - 1 && level >= 0 {
        Reassociate(afterValue, ",", NewLine);
      }
    }
    Reassociate(before, mid, item);
    Reassociate(before, mid + item, sep);
    Reassociate(start, done, mid + item + sep);
    Reassociate(Indent(level), Quote(key), ":");
    EntriesTextStep(es, n, memberName, level, format);
    done' := done + (Indent(level) + Quote(key) + ":" + colon + item + sep);
  }

  /** What one successful iteration of the loop of `StringifyArray` appends,
      snapshot by snapshot, extends the elements so far by element `i`. */
  lemma ElementAppended(es: seq<Value>, i: nat, memberName: string, level: int, format: NumberFormat,
                        start: string, done: string, before: string, head: string, afterValue: string, after: string)
    returns (done': string)
    requires i < |es|
    requires ElementsText(es, i, memberName, level, format) == Ok(done)
    requires ValueText(es[i], IndexPath(memberName, i), ChildLevel(level), format).Ok?
    requires before == start + done
    requires head == if level >= 0 then before + Spaces((level + 1) * Indentation) else before
    requires afterValue == head + ValueText(es[i], IndexPath(memberName, i), ChildLevel(level), format).value
    requires after == if i < |es| - 1 then (if level >= 0 then afterValue + "," + NewLine else afterValue + ",")
                      else afterValue
    ensures ElementsText(es, i + 1, memberName, level, format) == Ok(done')
    ensures after == start + done'
  {
    var sep := Separator(i, |es|, level);
    var item := ValueText(es[i], IndexPath(memberName, i), ChildLevel(level), format).value;
    assert head == before + Indent(level);
    assert after == afterValue + sep by {
      if i < |es| - 1 && level >= 0 {
        Reassociate(afterValue, ",", NewLine);
      }
    }
    Reassociate(before, Indent(level), item);
    Reassociate(before, Indent(level) + item, sep);
    Reassociate(start, done, Indent(level) + item + sep);
    ElementsTextStep(es, i, memberName, level, format);
    done' := done + (Indent(level) + item + sep);
  }

  /** The closing of a container, appended after its children, completes its text. */
  lemma ContainerClosed(x: string, open: string, close: string, level: int, done: string, body: string, after: string)
    requires body == x + open + LineBreak(level) + done
    requires after == (if level > 0 then body + NewLine + Spaces(level * Indentation)
                       else if level == 0 then body + NewLine
                       else body) + close
    ensures after == x + (open + LineBreak(level) + done + Closing(level) + close)
  {
    if level > 0 {
      assert body + NewLine + Spaces(level * Indentation) == body + (NewLine + Spaces(level * Indentation));
    }
    assert x + open + LineBreak(level) == x + (open + LineBreak(level));
    assert x + (open + LineBreak(level)) + done == x + ((open + LineBreak(level)) + done);
    assert x + (open + LineBreak(level) + done) + Closing(level) == x + ((open + LineBreak(level) + done) + Closing(level));
    assert x + (open + LineBreak(level) + done + Closing(level)) + close == x + ((open + LineBreak(level) + done + Closing(level)) + close);
  }

  /** The `StringBuilder` the generator appends to. */
  class StringBuilder {
    var text: string

    constructor ()
      ensures text == ""
    {
      text := "";
    }

    method Append(s: string)
      modifies this
      ensures text == old(text) + s
    {
      text := text + s;
    }

    method AppendLine()
      modifies this
      ensures text == old(text) + NewLine
    {
      text := text + NewLine;
    }
  }

  /** `Stringify(object json)`: the pretty layout is the default. */
  method StringifyDefault(json: Value, format: NumberFormat) returns (r: Result<string, Error>)
    ensures r == Document(json, false, format)
  {
    r := Stringify(json, false, format);
  }

  /** `Stringify(object json, bool isMinified)`: a fresh builder, the root at
      level -1 or 0, and one trailing line break in pretty mode. A thrown
      exception is the `Err` result; the partly filled builder is then dropped. */
  method Stringify(json: Value, isMinified: bool, format: NumberFormat) returns (r: Result<string, Error>)
    ensures r == Document(json, isMinified, format)
  {
    var sb := new StringBuilder();
    var err := StringifyValue(sb, RootName, json, if isMinified then -1 else 0, format);
    if err.Some? {
      return Err(err.value);
    }
    assert sb.text == ValueText(json, RootName, if isMinified then -1 else 0, format).value;
    if isMinified == false {
      sb.AppendLine();
    }
    r := Ok(sb.text);
  }

  /** The private `Stringify(sb, memberName, value, level)`: appends the text of
      `value`, or reports the exception it throws. */
  method StringifyValue(sb: StringBuilder, memberName: string, value: Value, level: int, format: NumberFormat)
    returns (err: Option<Error>)
    modifies sb
    ensures ValueText(value, memberName, level, format).Ok? ==>
              err.None? && sb.text == old(sb.text) + ValueText(value, memberName, level, format).value
    ensures ValueText(value, memberName, level, format).Err? ==>
              err == Some(ValueText(value, memberName, level, format).error)
    decreases value
  {
    match value
    case Null =>
      sb.Append("null");
      err := None;
    case Str(s) =>
      sb.Append("\"" + s + "\"");
      err := None;
    case Num(x) =>
      sb.Append(format(x));
      err := None;
    case Bool(b) =>
      sb.Append(if b then "true" else "false");
      err := None;
    case Arr(es) =>
      err := StringifyArray(sb, memberName, es, level, format);
    case Obj(es) =>
      err := StringifyObject(sb, memberName, es, level, format);
    case Unsupported(kind) =>
      err := Some(UnsupportedType(kind, memberName));
  }

  /** `StringifyObject`: the entries in the given order, each as `"key":` and
      its value, separated by commas. */
  method StringifyObject(sb: StringBuilder, memberName: string, es: seq<KeyValue>, level: int, format: NumberFormat)
    returns (err: Option<Error>)
    modifies sb
    ensures ValueText(Obj(es), memberName, level, format).Ok? ==>
              err.None? && sb.text == old(sb.text) + ValueText(Obj(es), memberName, level, format).value
    ensures ValueText(Obj(es), memberName, level, format).Err? ==>
              err == Some(ValueText(Obj(es), memberName, level, format).error)
    decreases es
  {
    sb.Append("{");
    if level >= 0 {
      sb.AppendLine();
    }
    ghost var start := sb.text;

    ghost var done := "";
    var n := 0;
    var nMax := |es|;
    while n < nMax
      invariant 0 <= n <= nMax
      invariant EntriesText(es, n, memberName, level, format) == Ok(done)
      invariant sb.text == start + done
    {
      var kv := es[n];
      ghost var before := sb.text;
      if level >= 0 {
        sb.Append(Spaces((level + 1) * Indentation));
      }
      sb.Append(Quote(kv.key) + ":");
      if level >= 0 {
        sb.Append(" ");
      }
      ghost var head := sb.text;
      var e := StringifyValue(sb, MemberPath(memberName, kv.key), kv.value, if level >= 0 then level + 1 else level, format);
      if e.Some? {
        EntryFailed(es, n, memberName, level, format);
        return e;
      }
      ghost var afterValue := sb.text;
      if n < nMax - 1 {
        sb.Append(",");
        if level >= 0 {
          sb.AppendLine();
        }
      }
      done := EntryAppended(es, n, memberName, level, format, start, done, before, head, afterValue, sb.text);
      n := n + 1;
    }

    ghost var body := sb.text;
    if level >= 0 {
      sb.AppendLine();
    }
    if level > 0 {
      sb.Append(Spaces(level * Indentation));
    }
    sb.Append("}");
    ContainerClosed(old(sb.text), "{", "}", level, done, body, sb.text);
    ObjectText(es, memberName, level, format);
    err := None;
  }

  /** `StringifyArray`: the elements by index, separated by commas. */
  method StringifyArray(sb: StringBuilder, memberName: string, es: seq<Value>, level: int, format: NumberFormat)
    returns (err: Option<Error>)
    modifies sb
    ensures ValueText(Arr(es), memberName, level, format).Ok? ==>
              err.None? && sb.text == old(sb.text) + ValueText(Arr(es), memberName, level, format).value
    ensures ValueText(Arr(es), memberName, level, format).Err? ==>
              err == Some(ValueText(Arr(es), memberName, level, format).error)
    decreases es
  {
    sb.Append("[");
    if level >= 0 {
      sb.AppendLine();
    }
    ghost var start := sb.text;

    ghost var done := "";
    for i := 0 to |es|
      invariant ElementsText(es, i, memberName, level, format) == Ok(done)
      invariant sb.text == start + done
    {
      ghost var before := sb.text;
      if level >= 0 {
        sb.Append(Spaces((level + 1) * Indentation));
      }
      ghost var head := sb.text;
      var e := StringifyValue(sb, IndexPath(memberName, i), es[i], if level >= 0 then level + 1 else level, format);
      if e.Some? {
        ElementFailed(es, i, memberName, level, format);
        return e;
      }
      ghost var afterValue := sb.text;
      if i < |es| - 1 {
        sb.Append(",");
        if level >= 0 {
          sb.AppendLine();
        }
      }
      done := ElementAppended(es, i, memberName, level, format, start, done, before, head, afterValue, sb.text);
    }

    ghost var body := sb.text;
    if level >= 0 {
      sb.AppendLine();
    }
    if level > 0 {
      sb.Append(Spaces(level * Indentation));
    }
    sb.Append("]");
    ContainerClosed(old(sb.text), "[", "]", level, done, body, sb.text);
    ArrayText(es, memberName, level, format);
    err := None;
  }
}
