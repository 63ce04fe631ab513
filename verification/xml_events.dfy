/**
 * The XML reader the TTML parser consumes, as a sequence of events.
 *
 * The reader is configured with `expand_empty_elements`, so `<x/>` arrives as a
 * `Start` followed by an `End`, and never as an empty-element event. Attribute values
 * are already unescaped; a `ReaderError` stands for any error the reader reports
 * (malformed markup, mismatched end tags, an unexpected end of input).
 */
module XmlEvents {
  import opened Wrappers
  import opened Text
  import opened LyricTypes

  datatype Attribute = Attr(key: string, value: string)

  datatype XmlEvent =
    | Start(name: string, attrs: seq<Attribute>)
    | End(name: string)
    | Text(text: string)
    | GeneralRef(entity: string)
    | Other
    | ReaderError

  /** The part of a qualified name after its first ':' (the whole name when it has none). */
  function LocalName(name: string): (r: string)
    ensures |r| <= |name|
    decreases |name|
  {
    if name == [] then []
    else if name[0] == ':' then name[1..]
    else
      var r := LocalName(name[1..]);
      if |r| == |name| - 1 then name else r
  }

  /**
   * The local name is a suffix of the name: all of it when the name has no ':',
   * and otherwise what follows the first ':'.
   */
  lemma {:induction false} LocalNameSuffix(name: string)
    ensures var r := LocalName(name);
            && r == name[|name| - |r|..]
            && ((forall i :: 0 <= i < |name| ==> name[i] != ':') ==> r == name)
            && (forall i :: 0 <= i < |name| - |r| - 1 ==> name[i] != ':')
            && (|r| < |name| ==> name[|name| - |r| - 1] == ':')
            && (|r| == |name| ==> forall i :: 0 <= i < |name| ==> name[i] != ':')
    decreases |name|
  {
    if name != [] && name[0] != ':' {
      LocalNameSuffix(name[1..]);
      var r := LocalName(name[1..]);
      if |r| != |name| - 1 {
        assert name[1..][|name[1..]| - |r|..] == name[|name| - |r|..];
        assert forall i :: 0 < i < |name| - |r| - 1 ==> name[i] == name[1..][i - 1];
      }
    }
  }

  /** `LocalName` of `prefix:local`, for a prefix without ':'. */
  lemma LocalNameOfPrefixed(prefix: string, local: string)
    requires forall i :: 0 <= i < |prefix| ==> prefix[i] != ':'
    ensures LocalName(prefix + ":" + local) == local
  {
    var name := prefix + ":" + local;
    LocalNameSuffix(name);
    assert name[|prefix|] == ':';
    assert forall i :: 0 <= i < |prefix| ==> name[i] == prefix[i];
    assert name[|prefix| + 1..] == local;
  }

  predicate HasTtmPrefix(name: string) {
    IsPrefix("ttm:", name)
  }

  /** `BytesStart::try_get_attribute`: the value of the first attribute with exactly this key. */
  function GetAttr(attrs: seq<Attribute>, key: string): Option<string> {
    if attrs == [] then None
    else if attrs[0].key == key then Some(attrs[0].value)
    else GetAttr(attrs[1..], key)
  }

  /** The attribute found is the first with the key, and there is none exactly when no attribute has it. */
  lemma {:induction false} GetAttrFirst(attrs: seq<Attribute>, key: string)
    ensures var r := GetAttr(attrs, key);
      (r.None? <==> forall i :: 0 <= i < |attrs| ==> attrs[i].key != key)
      && (r.Some? ==> exists i :: 0 <= i < |attrs| && attrs[i] == Attr(key, r.value)
                                 && forall j :: 0 <= j < i ==> attrs[j].key != key)
  {
    if attrs != [] && attrs[0].key != key {
      GetAttrFirst(attrs[1..], key);
      var r := GetAttr(attrs[1..], key);
      if r.Some? {
        var i :| 0 <= i < |attrs[1..]| && attrs[1..][i] == Attr(key, r.value)
                 && forall j :: 0 <= j < i ==> attrs[1..][j].key != key;
        assert attrs[i + 1] == Attr(key, r.value);
        assert forall j :: 0 <= j < i + 1 ==> attrs[j].key != key by {
          forall j | 0 <= j < i + 1 ensures attrs[j].key != key {
            if j > 0 { assert attrs[j] == attrs[1..][j - 1]; }
          }
        }
      } else {
        assert forall i :: 0 <= i < |attrs| ==> attrs[i].key != key by {
          forall i | 0 <= i < |attrs| ensures attrs[i].key != key {
            if i > 0 { assert attrs[i] == attrs[1..][i - 1]; }
          }
        }
      }
    }
  }

  /**
   * The five entities that section 4.6 of XML 1.0 predefines; every other name
   * (character references included) is unknown to the parser.
   */
  function PredefinedEntity(name: string): (c: Option<char>)
    ensures c.Some? <==> name in ["amp", "lt", "gt", "quot", "apos"]
  {
    if name == "amp" then Some('&')
    else if name == "lt" then Some('<')
    else if name == "gt" then Some('>')
    else if name == "quot" then Some('"')
    else if name == "apos" then Some('\'')
    else None
  }

  /** The entity name XML 1.0 gives to a markup-significant character. */
  function EntityNameOf(c: char): Option<string> {
    if c == '&' then Some("amp")
    else if c == '<' then Some("lt")
    else if c == '>' then Some("gt")
    else if c == '"' then Some("quot")
    else if c == '\'' then Some("apos")
    else None
  }

  /** Escaping a character and decoding the reference gives the character back. */
  lemma EntityRoundTrip(c: char)
    requires EntityNameOf(c).Some?
    ensures PredefinedEntity(EntityNameOf(c).value) == Some(c)
  {
  }

  datatype TextRead = TextRead(text: string, next: nat)

  /** The attributes of a start tag as markup: ` key="value"` for each, in order. */
  function AttrsMarkup(attrs: seq<Attribute>): string {
    if attrs == [] then [] else " " + attrs[0].key + "=\"" + attrs[0].value + "\"" + AttrsMarkup(attrs[1..])
  }

  /**
   * An event written back as markup: a start or end tag, text as it is, and a
   * reference as `&name;`. Events with no content in this model write nothing.
   */
  function Markup(e: XmlEvent): string {
    match e
    case Start(n, attrs) => "<" + n + AttrsMarkup(attrs) + ">"
    case End(n) => "</" + n + ">"
    case Text(t) => t
    case GeneralRef(name) => "&" + name + ";"
    case Other => []
    case ReaderError => []
  }

  /** The events from index `i` up to (not including) `j`, written back as markup. */
  function MarkupRange(events: seq<XmlEvent>, i: nat, j: nat): string
    requires i <= j <= |events|
    decreases j - i
  {
    if i == j then [] else Markup(events[i]) + MarkupRange(events, i + 1, j)
  }

  /**
   * `Reader::read_text`: the raw content up to the `End` that closes the element just
   * opened, and the index after it. The content is every event before that end
   * written back as markup, so nested elements and references are kept; nested
   * elements of the same name are counted so that only the matching end closes.
   * Running out of events, or a reader error on the way, is an XML error.
   */
  function ReadText(events: seq<XmlEvent>, i: nat, name: string): (r: Result<TextRead, ConvertError>)
    requires i <= |events|
    ensures r.Success? ==> i < r.value.next <= |events| && events[r.value.next - 1] == End(name)
    ensures r.Success? ==> forall j :: i <= j < r.value.next ==> !events[j].ReaderError?
    ensures r.Failure? ==> r.error == Xml
    ensures (forall j :: i <= j < |events| ==> events[j] != End(name)) ==> r.Failure?
  {
    ReadTextFromScan(events, i, name, 0);
    ReadTextFrom(events, i, name, 0)
  }

  /** The text read is every event before the closing tag, written back as markup. */
  lemma ReadTextMarkup(events: seq<XmlEvent>, i: nat, name: string)
    requires i <= |events|
    ensures var r := ReadText(events, i, name);
            r.Success? ==> r.value.text == MarkupRange(events, i, r.value.next - 1)
  {
    ReadTextFromMarkup(events, i, name, 0);
  }

  /** `ReadText` from index `i`, with `depth` elements named `name` still open inside the one being read. */
  function ReadTextFrom(events: seq<XmlEvent>, i: nat, name: string, depth: nat)
    : (r: Result<TextRead, ConvertError>)
    requires i <= |events|
    ensures r.Success? ==> i < r.value.next <= |events|
    decreases |events| - i
  {
    if i == |events| || events[i].ReaderError? then Failure(Xml)
    else if events[i] == End(name) && depth == 0 then Success(TextRead([], i + 1))
    else
      var rest := ReadTextFrom(events, i + 1, name, DepthAfter(events[i], name, depth));
      if rest.Failure? then rest
      else Success(TextRead(Markup(events[i]) + rest.value.text, rest.value.next))
  }

  /**
   * `ReadTextFrom` stops only at an `End(name)`, passes no reader error on the way,
   * fails only with an XML error, and fails when no `End(name)` is left.
   */
  lemma {:induction false} ReadTextFromScan(events: seq<XmlEvent>, i: nat, name: string, depth: nat)
    requires i <= |events|
    ensures var r := ReadTextFrom(events, i, name, depth);
            && (r.Success? ==> events[r.value.next - 1] == End(name))
            && (r.Success? ==> forall j :: i <= j < r.value.next ==> !events[j].ReaderError?)
            && (r.Failure? ==> r.error == Xml)
            && ((forall j :: i <= j < |events| ==> events[j] != End(name)) ==> r.Failure?)
    decreases |events| - i
  {
    if i < |events| && !events[i].ReaderError? && !(events[i] == End(name) && depth == 0) {
      ReadTextFromScan(events, i + 1, name, DepthAfter(events[i], name, depth));
    }
  }

  /** The nesting depth of same-named elements after passing `e` inside the element being read. */
  function DepthAfter(e: XmlEvent, name: string, depth: nat): nat
    requires !(e == End(name) && depth == 0)
  {
    if e == End(name) then depth - 1
    else if e.Start? && e.name == name then depth + 1
    else depth
  }

  /** What `ReadTextFrom` gathers is the events it passed, as markup. */
  lemma {:induction false} ReadTextFromMarkup(events: seq<XmlEvent>, i: nat, name: string, depth: nat)
    requires i <= |events|
    ensures var r := ReadTextFrom(events, i, name, depth);
            r.Success? ==> r.value.text == MarkupRange(events, i, r.value.next - 1)
    decreases |events| - i
  {
    var r := ReadTextFrom(events, i, name, depth);
    if i < |events| && r.Success? && !(events[i] == End(name) && depth == 0) {
      ReadTextFromMarkup(events, i + 1, name, DepthAfter(events[i], name, depth));
    }
  }

  /** The text of `<x>a&amp;b<i>c</i></x>` is read back as written, reference and nested element included. */
  lemma ReadTextExample(name: string)
    requires name != "i"
    ensures ReadText([Text("a"), GeneralRef("amp"), Text("b"), Start("i", []), Text("c"), End("i"), End(name)], 0, name)
         == Success(TextRead("a&amp;b<i>c</i>", 7))
  {
    var ev := [Text("a"), GeneralRef("amp"), Text("b"), Start("i", []), Text("c"), End("i"), End(name)];
    var t6: string := [];
    var t5 := Markup(ev[5]) + t6;
    var t4 := Markup(ev[4]) + t5;
    var t3 := Markup(ev[3]) + t4;
    var t2 := Markup(ev[2]) + t3;
    var t1 := Markup(ev[1]) + t2;
    var t0 := Markup(ev[0]) + t1;
    assert ReadTextFrom(ev, 6, name, 0) == Success(TextRead(t6, 7));
    assert ReadTextFrom(ev, 5, name, 0) == Success(TextRead(t5, 7));
    assert ReadTextFrom(ev, 4, name, 0) == Success(TextRead(t4, 7));
    assert ReadTextFrom(ev, 3, name, 0) == Success(TextRead(t3, 7));
    assert ReadTextFrom(ev, 2, name, 0) == Success(TextRead(t2, 7));
    assert ReadTextFrom(ev, 1, name, 0) == Success(TextRead(t1, 7));
    assert ReadTextFrom(ev, 0, name, 0) == Success(TextRead(t0, 7));
    assert AttrsMarkup([]) == [];
    assert t0 == "a&amp;b<i>c</i>";
  }
}
