/**
 * What the JSON generator produces, described independently of its loops:
 * the minified layout `Compact`, the pretty layout `Pretty` (both built with
 * `Join`), and the member the generator reports when it meets a value of an
 * unsupported kind (`Culprit`, the first such member in document order).
 *
 * The main theorem, `ValueTextMatches`, says that the generator's text
 * (`JsonGenerator.ValueText`, which the `Stringify` methods are proved to
 * append) is exactly this description; the remaining lemmas derive the
 * properties of the public `Stringify` from it.
 */
module JsonReference {
  import opened Wrappers
  import opened JsonGenerator

  /** The parts in order with `sep` between each two of them. */
  function Join(parts: seq<string>, sep: string): string
    decreases |parts|
  {
    if |parts| == 0 then ""
    else if |parts| == 1 then parts[0]
    else parts[0] + sep + Join(parts[1..], sep)
  }

  lemma {:induction false} JoinSnoc(parts: seq<string>, p: string, sep: string)
    requires |parts| > 0
    ensures Join(parts + [p], sep) == Join(parts, sep) + sep + p
    decreases |parts|
  {
    if |parts| == 1 {
      assert (parts + [p])[1..] == [p];
    } else {
      assert (parts + [p])[1..] == parts[1..] + [p];
      JoinSnoc(parts[1..], p, sep);
      assert (parts[0] + sep) + (Join(parts[1..], sep) + sep) + p == (parts[0] + sep) + ((Join(parts[1..], sep) + sep) + p);
      assert (parts[0] + sep) + Join(parts[1..], sep) + sep == (parts[0] + sep) + (Join(parts[1..], sep) + sep);
    }
  }

  /** The first `k` parts joined, followed by `sep` when more parts come after them. */
  function JoinedPrefix(parts: seq<string>, k: nat, sep: string): string
    requires k <= |parts|
  {
    if k == 0 then "" else Join(parts[..k], sep) + (if k < |parts| then sep else "")
  }

  lemma JoinedPrefixStep(parts: seq<string>, j: nat, sep: string)
    requires j < |parts|
    ensures JoinedPrefix(parts, j + 1, sep) == JoinedPrefix(parts, j, sep) + (parts[j] + (if j + 1 < |parts| then sep else ""))
  {
    var tail := if j + 1 < |parts| then sep else "";
    if j == 0 {
      assert parts[..1] == [parts[0]];
    } else {
      assert parts[..j + 1] == parts[..j] + [parts[j]];
      JoinSnoc(parts[..j], parts[j], sep);
      assert (Join(parts[..j], sep) + sep) + parts[j] + tail == (Join(parts[..j], sep) + sep) + (parts[j] + tail);
    }
  }

  /** No value of an unsupported kind occurs anywhere in `v`. */
  predicate Supported(v: Value)
    decreases v
  {
    match v
    case Arr(es) => forall i :: 0 <= i < |es| ==> Supported(es[i])
    case Obj(es) => forall i :: 0 <= i < |es| ==> Supported(es[i].value)
    case Unsupported(_) => false
    case _ => true
  }

  /** The minified layout: no whitespace added anywhere. (An unsupported value
      has no layout; `ValueTextMatches` shows the generator fails on it.) */
  function Compact(v: Value, format: NumberFormat): string
    decreases v
  {
    match v
    case Null => "null"
    case Str(s) => Quote(s)
    case Num(x) => format(x)
    case Bool(b) => if b then "true" else "false"
    case Arr(es) => "[" + Join(CompactElements(es, format), ",") + "]"
    case Obj(es) => "{" + Join(CompactEntries(es, format), ",") + "}"
    case Unsupported(_) => ""
  }

  function CompactElements(es: seq<Value>, format: NumberFormat): (r: seq<string>)
    ensures |r| == |es|
    decreases es
  {
    seq(|es|, i requires 0 <= i < |es| => Compact(es[i], format))
  }

  function CompactEntries(es: seq<KeyValue>, format: NumberFormat): (r: seq<string>)
    ensures |r| == |es|
    decreases es
  {
    seq(|es|, i requires 0 <= i < |es| => Quote(es[i].key) + ":" + Compact(es[i].value, format))
  }

  /** The pretty layout of a value nested `L` levels deep: every child on its
      own line indented by (L+1)*4 spaces, `": "` after each key, a line break
      after each comma, and the closing bracket on its own line indented by
      L*4 spaces. An empty container is its brackets with an empty line between. */
  function Pretty(v: Value, L: nat, format: NumberFormat): string
    decreases v
  {
    match v
    case Null => "null"
    case Str(s) => Quote(s)
    case Num(x) => format(x)
    case Bool(b) => if b then "true" else "false"
    case Arr(es) =>
      "[" + NewLine + Join(PrettyElements(es, L, format), "," + NewLine) + NewLine + Spaces(L * Indentation) + "]"
    case Obj(es) =>
      "{" + NewLine + Join(PrettyEntries(es, L, format), "," + NewLine) + NewLine + Spaces(L * Indentation) + "}"
    case Unsupported(_) => ""
  }

  function PrettyElements(es: seq<Value>, L: nat, format: NumberFormat): (r: seq<string>)
    ensures |r| == |es|
    decreases es
  {
    seq(|es|, i requires 0 <= i < |es| => Spaces((L + 1) * Indentation) + Pretty(es[i], L + 1, format))
  }

  function PrettyEntries(es: seq<KeyValue>, L: nat, format: NumberFormat): (r: seq<string>)
    ensures |r| == |es|
    decreases es
  {
    seq(|es|, i requires 0 <= i < |es| =>
      Spaces((L + 1) * Indentation) + Quote(es[i].key) + ": " + Pretty(es[i].value, L + 1, format))
  }

  /** The layout a level selects: pretty from level 0 up, minified below. */
  function Layout(v: Value, level: int, format: NumberFormat): string
  {
    if level >= 0 then Pretty(v, level, format) else Compact(v, format)
  }

  function ElementParts(es: seq<Value>, level: int, format: NumberFormat): (r: seq<string>)
    ensures |r| == |es|
  {
    if level >= 0 then PrettyElements(es, level, format) else CompactElements(es, format)
  }

  function EntryParts(es: seq<KeyValue>, level: int, format: NumberFormat): (r: seq<string>)
    ensures |r| == |es|
  {
    if level >= 0 then PrettyEntries(es, level, format) else CompactEntries(es, format)
  }

  function ListSeparator(level: int): string
  {
    "," + LineBreak(level)
  }

  /** The first member, in document order, that holds a value of an unsupported
      kind, named by its path from `path`; none exactly when `v` is supported. */
  function Culprit(v: Value, path: string): (r: Option<Error>)
    ensures r.None? <==> Supported(v)
    ensures r.Some? ==> path <= r.value.member
    decreases v
  {
    match v
    case Arr(es) => ElementsCulprit(es, |es|, path)
    case Obj(es) => EntriesCulprit(es, |es|, path)
    case Unsupported(kind) => Some(UnsupportedType(kind, path))
    case _ => None
  }

  /** The first culprit among the first `k` elements of an array at `path`. */
  function ElementsCulprit(es: seq<Value>, k: nat, path: string): (r: Option<Error>)
    requires k <= |es|
    ensures r.None? <==> forall i :: 0 <= i < k ==> Supported(es[i])
    ensures r.Some? ==> path <= r.value.member
    decreases es, k
  {
    if k == 0 then None
    else
      match ElementsCulprit(es, k - 1, path)
      case Some(e) => Some(e)
      case None =>
        match Culprit(es[k - 1], IndexPath(path, k - 1))
        case None => None
        case Some(e) => PrefixTransitive(path, IndexPath(path, k - 1), e.member); Some(e)
  }

  /** The first culprit among the first `k` entries of an object at `path`. */
  function EntriesCulprit(es: seq<KeyValue>, k: nat, path: string): (r: Option<Error>)
    requires k <= |es|
    ensures r.None? <==> forall i :: 0 <= i < k ==> Supported(es[i].value)
    ensures r.Some? ==> path <= r.value.member
    decreases es, k
  {
    if k == 0 then None
    else
      match EntriesCulprit(es, k - 1, path)
      case Some(e) => Some(e)
      case None =>
        match Culprit(es[k - 1].value, MemberPath(path, es[k - 1].key))
        case None => None
        case Some(e) => PrefixTransitive(path, MemberPath(path, es[k - 1].key), e.member); Some(e)
  }

  /** The generator's text for a container's frame: its brackets, and in
      pretty mode the line breaks and the indentation of the closing bracket. */
  lemma FrameText(open: string, close: string, level: int, body: string)
    ensures open + LineBreak(level) + body + Closing(level) + close
            == if level >= 0 then open + NewLine + body + NewLine + Spaces(level * Indentation) + close
               else open + body + close
  {
    if level >= 0 {
      var s := Spaces(level * Indentation);
      assert Closing(level) == NewLine + s;
      assert (open + NewLine + body) + NewLine + s == (open + NewLine + body) + (NewLine + s);
    } else {
      assert LineBreak(level) == "" && Closing(level) == "";
      assert open + LineBreak(level) == open;
      assert open + body + Closing(level) == open + body;
    }
  }

  /**
   * The generator's text is the layout its level selects, unless the value
   * holds a member of an unsupported kind: then it fails, naming the first
   * such member in document order. A negative level is handed down unchanged,
   * so everything below a minified root is minified too.
   */
  lemma {:induction false} ValueTextMatches(v: Value, memberName: string, level: int, format: NumberFormat)
    ensures ValueText(v, memberName, level, format)
            == match Culprit(v, memberName)
               case Some(e) => Err(e)
               case None => Ok(Layout(v, level, format))
    decreases v
  {
    match v
    case Arr(es) =>
      ElementsTextMatches(es, |es|, memberName, level, format);
      ArrayText(es, memberName, level, format);
      if ElementsCulprit(es, |es|, memberName).None? {
        var parts, sep := ElementParts(es, level, format), ListSeparator(level);
        assert "," + "" == ",";
        assert sep == if level >= 0 then "," + NewLine else ",";
        assert parts[..|parts|] == parts;
        assert JoinedPrefix(parts, |parts|, sep) == Join(parts, sep);
        FrameText("[", "]", level, Join(parts, sep));
      }
    case Obj(es) =>
      EntriesTextMatches(es, |es|, memberName, level, format);
      ObjectText(es, memberName, level, format);
      if EntriesCulprit(es, |es|, memberName).None? {
        var parts, sep := EntryParts(es, level, format), ListSeparator(level);
        assert "," + "" == ",";
        assert sep == if level >= 0 then "," + NewLine else ",";
        assert parts[..|parts|] == parts;
        assert JoinedPrefix(parts, |parts|, sep) == Join(parts, sep);
        FrameText("{", "}", level, Join(parts, sep));
      }
    case _ =>
  }

  /** The first `k` iterations of the loop of `StringifyArray`. */
  lemma {:induction false} ElementsTextMatches(es: seq<Value>, k: nat, memberName: string, level: int, format: NumberFormat)
    requires k <= |es|
    ensures ElementsText(es, k, memberName, level, format)
            == match ElementsCulprit(es, k, memberName)
               case Some(e) => Err(e)
               case None => Ok(JoinedPrefix(ElementParts(es, level, format), k, ListSeparator(level)))
    decreases es, k
  {
    if k > 0 {
      var child := IndexPath(memberName, k - 1);
      ElementsTextMatches(es, k - 1, memberName, level, format);
      ValueTextMatches(es[k - 1], child, ChildLevel(level), format);
      if ElementsCulprit(es, k - 1, memberName).None? && Culprit(es[k - 1], child).None? {
        var parts := ElementParts(es, level, format);
        var item := Layout(es[k - 1], ChildLevel(level), format);
        assert parts[k - 1] == Indent(level) + item;
        JoinedPrefixStep(parts, k - 1, ListSeparator(level));
      }
    }
  }

  /** The first `k` iterations of the loop of `StringifyObject`. */
  lemma {:induction false} EntriesTextMatches(es: seq<KeyValue>, k: nat, memberName: string, level: int, format: NumberFormat)
    requires k <= |es|
    ensures EntriesText(es, k, memberName, level, format)
            == match EntriesCulprit(es, k, memberName)
               case Some(e) => Err(e)
               case None => Ok(JoinedPrefix(EntryParts(es, level, format), k, ListSeparator(level)))
    decreases es, k
  {
    if k > 0 {
      var key := es[k - 1].key;
      var child := MemberPath(memberName, key);
      EntriesTextMatches(es, k - 1, memberName, level, format);
      ValueTextMatches(es[k - 1].value, child, ChildLevel(level), format);
      if EntriesCulprit(es, k - 1, memberName).None? && Culprit(es[k - 1].value, child).None? {
        var parts := EntryParts(es, level, format);
        var item := Layout(es[k - 1].value, ChildLevel(level), format);
        EntryPart(key, item, level);
        assert parts[k - 1] == Indent(level) + Quote(key) + ":" + ColonSpace(level) + item;
        JoinedPrefixStep(parts, k - 1, ListSeparator(level));
      }
    }
  }

  /** The generator's pieces of one entry make up the layout's entry. */
  lemma EntryPart(key: string, item: string, level: int)
    ensures Indent(level) + Quote(key) + ":" + ColonSpace(level) + item
            == if level >= 0 then Spaces((level + 1) * Indentation) + Quote(key) + ": " + item
               else Quote(key) + ":" + item
  {
    if level >= 0 {
      assert (Spaces((level + 1) * Indentation) + Quote(key)) + ":" + " " == (Spaces((level + 1) * Indentation) + Quote(key)) + (":" + " ");
    } else {
      assert Indent(level) + Quote(key) == Quote(key);
    }
  }

  /** `Stringify(json, isMinified)`: the minified layout of the root, or its
      pretty layout at level 0 followed by exactly one line break; it fails,
      returning no text, exactly when the tree holds an unsupported value. */
  lemma DocumentMatches(json: Value, isMinified: bool, format: NumberFormat)
    ensures Document(json, isMinified, format).Err? <==> !Supported(json)
    ensures Document(json, isMinified, format)
            == match Culprit(json, RootName)
               case Some(e) => Err(e)
               case None => Ok(if isMinified then Compact(json, format) else Pretty(json, 0, format) + NewLine)
  {
    ValueTextMatches(json, RootName, if isMinified then -1 else 0, format);
  }

  /** Scalars: `null`, `true`/`false`, a number's formatted text, and a string
      between quotes with its characters unescaped; the same at every level. */
  lemma ScalarText(memberName: string, level: int, format: NumberFormat, s: string, x: Float32, b: bool)
    ensures ValueText(Null, memberName, level, format) == Ok("null")
    ensures ValueText(Bool(b), memberName, level, format) == Ok(if b then "true" else "false")
    ensures ValueText(Num(x), memberName, level, format) == Ok(format(x))
    ensures ValueText(Str(s), memberName, level, format) == Ok(['"'] + s + ['"'])
  {
  }

  /** Empty containers: `[]`/`{}` when minified; when pretty, the opening
      bracket, two line breaks and the closing bracket indented to `level`. */
  lemma EmptyContainers(memberName: string, level: int, format: NumberFormat)
    ensures ValueText(Arr([]), memberName, level, format)
            == Ok(if level >= 0 then "[" + NewLine + NewLine + Spaces(level * Indentation) + "]" else "[]")
    ensures ValueText(Obj([]), memberName, level, format)
            == Ok(if level >= 0 then "{" + NewLine + NewLine + Spaces(level * Indentation) + "}" else "{}")
  {
    ValueTextMatches(Arr([]), memberName, level, format);
    ValueTextMatches(Obj([]), memberName, level, format);
    assert Join([], "," + NewLine) == "" && Join([], ",") == "";
    assert "[" + NewLine + "" == "[" + NewLine && "{" + NewLine + "" == "{" + NewLine;
    assert "[" + "" + "]" == "[]" && "{" + "" + "}" == "{}";
  }

  /** The whitespace characters of JSON. */
  predicate IsWhitespace(c: char)
  {
    c == ' ' || c == '\t' || c == '\n' || c == '\r'
  }

  /** `s` with every whitespace character removed. */
  function Strip(s: string): string
  {
    if |s| == 0 then "" else (if IsWhitespace(s[0]) then "" else [s[0]]) + Strip(s[1..])
  }

  lemma {:induction false} StripConcat(a: string, b: string)
    ensures Strip(a + b) == Strip(a) + Strip(b)
  {
    if |a| == 0 {
      assert a + b == b;
    } else {
      assert (a + b)[1..] == a[1..] + b;
      StripConcat(a[1..], b);
      assert (if IsWhitespace(a[0]) then "" else [a[0]]) + Strip(a[1..]) + Strip(b) == (if IsWhitespace(a[0]) then "" else [a[0]]) + (Strip(a[1..]) + Strip(b));
    }
  }

  lemma {:induction false} StripSpaces(n: nat)
    ensures Strip(Spaces(n)) == ""
  {
    if n > 0 {
      StripSpaces(n - 1);
      StripConcat(Spaces(n - 1), " ");
    }
  }

  lemma {:induction false} StripJoin(a: seq<string>, b: seq<string>, sa: string, sb: string)
    requires |a| == |b|
    requires forall i :: 0 <= i < |a| ==> Strip(a[i]) == Strip(b[i])
    requires Strip(sa) == Strip(sb)
    ensures Strip(Join(a, sa)) == Strip(Join(b, sb))
    decreases |a|
  {
    if |a| > 1 {
      StripJoin(a[1..], b[1..], sa, sb);
      StripConcat(a[0] + sa, Join(a[1..], sa));
      StripConcat(a[0], sa);
      StripConcat(b[0] + sb, Join(b[1..], sb));
      StripConcat(b[0], sb);
    }
  }

  /** The whitespace of a pretty container frame, stripped, leaves the brackets. */
  lemma StripFrame(open: string, close: string, body: string, n: nat)
    ensures Strip(open + NewLine + body + NewLine + Spaces(n) + close)
            == Strip(open) + Strip(body) + Strip(close)
  {
    assert Strip(NewLine) == "";
    StripSpaces(n);
    var a := open + NewLine;
    var b := a + body;
    var c := b + NewLine;
    var d := c + Spaces(n);
    StripWhiteSuffix(open, NewLine);
    StripConcat(a, body);
    StripWhiteSuffix(b, NewLine);
    StripWhiteSuffix(c, Spaces(n));
    StripConcat(d, close);
  }

  lemma StripWhiteSuffix(a: string, w: string)
    requires Strip(w) == ""
    ensures Strip(a + w) == Strip(a)
  {
    StripConcat(a, w);
  }

  /** Pretty and minified layouts differ only in whitespace: once all
      whitespace is removed from both, the same text remains. */
  lemma {:induction false} PrettyStripsToCompact(v: Value, L: nat, format: NumberFormat)
    ensures Strip(Pretty(v, L, format)) == Strip(Compact(v, format))
    decreases v
  {
    match v
    case Arr(es) =>
      ElementsStrip(es, L, format);
      StripFrame("[", "]", Join(PrettyElements(es, L, format), "," + NewLine), L * Indentation);
      StripBrackets("[", "]", Join(CompactElements(es, format), ","));
    case Obj(es) =>
      EntriesStrip(es, L, format);
      StripFrame("{", "}", Join(PrettyEntries(es, L, format), "," + NewLine), L * Indentation);
      StripBrackets("{", "}", Join(CompactEntries(es, format), ","));
    case _ =>
  }

  lemma {:induction false} ElementsStrip(es: seq<Value>, L: nat, format: NumberFormat)
    ensures Strip(Join(PrettyElements(es, L, format), "," + NewLine)) == Strip(Join(CompactElements(es, format), ","))
    decreases es
  {
    var p, c := PrettyElements(es, L, format), CompactElements(es, format);
    forall i | 0 <= i < |es|
      ensures Strip(p[i]) == Strip(c[i])
    {
      PrettyStripsToCompact(es[i], L + 1, format);
      StripIndented((L + 1) * Indentation, Pretty(es[i], L + 1, format));
    }
    assert Strip("," + NewLine) == Strip(",");
    StripJoin(p, c, "," + NewLine, ",");
  }

  lemma {:induction false} EntriesStrip(es: seq<KeyValue>, L: nat, format: NumberFormat)
    ensures Strip(Join(PrettyEntries(es, L, format), "," + NewLine)) == Strip(Join(CompactEntries(es, format), ","))
    decreases es
  {
    var p, c := PrettyEntries(es, L, format), CompactEntries(es, format);
    forall i | 0 <= i < |es|
      ensures Strip(p[i]) == Strip(c[i])
    {
      var key, child := Quote(es[i].key), es[i].value;
      PrettyStripsToCompact(child, L + 1, format);
      StripEntry((L + 1) * Indentation, key, Pretty(child, L + 1, format), Compact(child, format));
    }
    assert Strip("," + NewLine) == Strip(",");
    StripJoin(p, c, "," + NewLine, ",");
  }

  lemma StripIndented(n: nat, s: string)
    ensures Strip(Spaces(n) + s) == Strip(s)
  {
    StripConcat(Spaces(n), s);
    StripSpaces(n);
  }

  lemma StripEntry(n: nat, key: string, pretty: string, compact: string)
    requires Strip(pretty) == Strip(compact)
    ensures Strip(Spaces(n) + key + ": " + pretty) == Strip(key + ":" + compact)
  {
    StripConcat(Spaces(n) + key + ": ", pretty);
    StripConcat(Spaces(n) + key, ": ");
    StripIndented(n, key);
    StripConcat(key + ":", compact);
    StripConcat(key, ":");
    assert Strip(": ") == Strip(":");
  }

  lemma StripBrackets(open: string, close: string, body: string)
    ensures Strip(open + body + close) == Strip(open) + Strip(body) + Strip(close)
  {
    StripConcat(open + body, close);
    StripConcat(open, body);
  }

  /** Minified and pretty output of one tree: both fail, with the same error,
      or both succeed and are equal once all whitespace is removed. */
  lemma ModesAgree(json: Value, format: NumberFormat)
    ensures Document(json, true, format).Err? <==> Document(json, false, format).Err?
    ensures Document(json, true, format).Err? ==> Document(json, true, format).error == Document(json, false, format).error
    ensures Document(json, true, format).Ok? ==>
              Strip(Document(json, false, format).value) == Strip(Document(json, true, format).value)
  {
    DocumentMatches(json, true, format);
    DocumentMatches(json, false, format);
    if Supported(json) {
      PrettyStripsToCompact(json, 0, format);
      StripConcat(Pretty(json, 0, format), NewLine);
      assert Strip(NewLine) == "";
    }
  }

  /** The value of a string of decimal digits. */
  function DecimalValue(s: string): nat
    requires forall i :: 0 <= i < |s| ==> '0' <= s[i] <= '9'
  {
    if |s| == 0 then 0 else DecimalValue(s[..|s| - 1]) * 10 + ((s[|s| - 1] as int) - ('0' as int))
  }

  /** The index in an element's path reads back as that index. */
  lemma {:induction false} DecimalRoundTrip(n: nat)
    ensures DecimalValue(DecimalDigits(n)) == n
  {
    var r := DecimalDigits(n);
    if n >= 10 {
      DecimalRoundTrip(n / 10);
      assert r[..|r| - 1] == DecimalDigits(n / 10);
    }
  }

  /** A value of an unsupported kind nested in two objects is reported with
      its path through their keys. */
  lemma ExampleNestedMemberError(format: NumberFormat)
    ensures Document(Obj([KeyValue("meta", Obj([KeyValue("timestamp", Unsupported("System.DateTime"))]))]), false, format)
            == Err(UnsupportedType("System.DateTime", "<root>.meta.timestamp"))
  {
    var meta := Obj([KeyValue("meta", Obj([KeyValue("timestamp", Unsupported("System.DateTime"))]))]);
    NestedMemberCulprit();
    DocumentMatches(meta, false, format);
  }

  lemma NestedMemberCulprit()
    ensures Culprit(Obj([KeyValue("meta", Obj([KeyValue("timestamp", Unsupported("System.DateTime"))]))]), RootName)
            == Some(UnsupportedType("System.DateTime", "<root>.meta.timestamp"))
  {
    var stamp := Obj([KeyValue("timestamp", Unsupported("System.DateTime"))]);
    var path := MemberPath(MemberPath(RootName, "meta"), "timestamp");
    assert Culprit(stamp, MemberPath(RootName, "meta")) == Some(UnsupportedType("System.DateTime", path));
    assert path == "<root>.meta.timestamp";
  }

  /** Inside an array the reported path carries the element's index; the
      supported elements before it do not stop the search. */
  lemma ExampleElementError(format: NumberFormat)
    ensures Document(Obj([KeyValue("to", Arr([Null, Null, Obj([KeyValue("email", Unsupported("System.Uri"))])]))]), true, format)
            == Err(UnsupportedType("System.Uri", "<root>.to[2].email"))
  {
    var doc := Obj([KeyValue("to", Arr([Null, Null, Obj([KeyValue("email", Unsupported("System.Uri"))])]))]);
    ElementCulprit();
    DocumentMatches(doc, true, format);
  }

  lemma ElementCulprit()
    ensures Culprit(Obj([KeyValue("to", Arr([Null, Null, Obj([KeyValue("email", Unsupported("System.Uri"))])]))]), RootName)
            == Some(UnsupportedType("System.Uri", "<root>.to[2].email"))
  {
    var email := Obj([KeyValue("email", Unsupported("System.Uri"))]);
    var to := Arr([Null, Null, email]);
    var toPath := MemberPath(RootName, "to");
    var emailPath := MemberPath(IndexPath(toPath, 2), "email");
    assert Culprit(email, IndexPath(toPath, 2)) == Some(UnsupportedType("System.Uri", emailPath));
    assert ElementsCulprit(to.elements, 2, toPath) == None;
    assert Culprit(to, toPath) == Some(UnsupportedType("System.Uri", emailPath));
    ElementPathText();
  }

  lemma ElementPathText()
    ensures MemberPath(IndexPath(MemberPath(RootName, "to"), 2), "email") == "<root>.to[2].email"
  {
    assert DecimalDigits(2) == "2";
  }
}
