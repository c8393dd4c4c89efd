/** URL paths of the ruler API: percent-encoded segments and what they address. */
module Addressing {
  import opened Wrappers
  import opened Texts

  predicate AlphaNumeric(c: char) {
    IsDigit(c) || 'a' <= c <= 'z' || 'A' <= c <= 'Z'
  }

  /** The bytes url.PathEscape leaves alone: the unreserved ones (section 2.3 of RFC 3986), and those
      reserved ones that net/url does not consider special within a segment. */
  predicate Kept(c: char) {
    || AlphaNumeric(c) || c == '-' || c == '_' || c == '.' || c == '~'
    || c == '$' || c == '&' || c == '+' || c == ':' || c == '=' || c == '@'
  }

  const HEX: Text := "0123456789ABCDEF"

  predicate IsHex(c: char) {
    IsDigit(c) || 'a' <= c <= 'f' || 'A' <= c <= 'F'
  }

  function HexValue(c: char): (v: nat)
    requires IsHex(c)
    ensures v < 16
  {
    if IsDigit(c) then c as int - '0' as int
    else if 'a' <= c then c as int - 'a' as int + 10
    else c as int - 'A' as int + 10
  }

  function EscapeByte(c: Octet): Text {
    if Kept(c) then [c] else ['%', HEX[c as int / 16], HEX[c as int % 16]]
  }

  /** url.PathEscape */
  function PathEscape(s: Text): Text {
    if s == [] then [] else EscapeByte(s[0]) + PathEscape(s[1..])
  }

  /** url.PathUnescape (section 2.1 of RFC 3986); None is its error. */
  function PathUnescape(s: Text): Option<Text> {
    if s == [] then Some([])
    else if s[0] != '%' then
      match PathUnescape(s[1..])
      case Some(rest) => Some([s[0]] + rest)
      case None => None
    else if |s| < 3 || !IsHex(s[1]) || !IsHex(s[2]) then None
    else
      match PathUnescape(s[3..])
      case Some(rest) => Some([(16 * HexValue(s[1]) + HexValue(s[2])) as char] + rest)
      case None => None
  }

  lemma HexRoundTrip(n: nat)
    requires n < 16
    ensures IsHex(HEX[n]) && HexValue(HEX[n]) == n && AlphaNumeric(HEX[n])
  {
  }

  lemma EscapeByteParts(c: Octet)
    ensures forall d :: d in EscapeByte(c) ==> d == '%' || Kept(d)
    ensures var e := EscapeByte(c);
      !Kept(c) ==>
        && |e| == 3 && e[0] == '%' && IsHex(e[1]) && IsHex(e[2])
        && 16 * HexValue(e[1]) + HexValue(e[2]) == c as int
  {
    HexRoundTrip(c as int / 16);
    HexRoundTrip(c as int % 16);
  }

  lemma KeptDecodes(c: Octet, rest: Text)
    requires Kept(c) && PathUnescape(rest).Some?
    ensures PathUnescape([c] + rest) == Some([c] + PathUnescape(rest).value)
  {
    assert ([c] + rest)[1..] == rest;
  }

  lemma EscapedDecodes(e: Text, c: Octet, rest: Text)
    requires |e| == 3 && e[0] == '%' && IsHex(e[1]) && IsHex(e[2]) && PathUnescape(rest).Some?
    requires 16 * HexValue(e[1]) + HexValue(e[2]) == c as int
    ensures PathUnescape(e + rest) == Some([c] + PathUnescape(rest).value)
  {
    assert (e + rest)[3..] == rest;
    assert (e + rest)[0] == e[0] && (e + rest)[1] == e[1] && (e + rest)[2] == e[2];
  }

  lemma ByteDecodes(c: Octet, rest: Text)
    requires PathUnescape(rest).Some?
    ensures PathUnescape(EscapeByte(c) + rest) == Some([c] + PathUnescape(rest).value)
  {
    EscapeByteParts(c);
    if Kept(c) {
      KeptDecodes(c, rest);
    } else {
      EscapedDecodes(EscapeByte(c), c, rest);
    }
  }

  /** An encoded segment is a segment: it holds no slash, no query or fragment mark, only kept bytes
      and percent signs; and it decodes to the text it came from. */
  lemma {:induction false} EscapeDecodes(s: Text)
    ensures forall d :: d in PathEscape(s) ==> d == '%' || Kept(d)
    ensures PathUnescape(PathEscape(s)) == Some(s)
  {
    if s != [] {
      EscapeByteParts(s[0]);
      EscapeDecodes(s[1..]);
      ByteDecodes(s[0], PathEscape(s[1..]));
      assert [s[0]] + s[1..] == s;
    }
  }

  const RULES: Text := "/config/v1/rules/"

  /** The path SetRuleGroup posts to. */
  function NamespacePath(namespace: Text): Text {
    RULES + PathEscape(namespace)
  }

  /** The path GetRuleGroup and DeleteRuleGroup use. */
  function GroupPath(namespace: Text, name: Text): Text {
    RULES + PathEscape(namespace) + "/" + PathEscape(name)
  }

  function UnderRules(path: Text): Option<Text> {
    if RULES <= path then Some(path[|RULES|..]) else None
  }

  /** The namespace a server reads off a path with one segment below the rules root. */
  function ReadNamespacePath(path: Text): Option<Text> {
    match UnderRules(path)
    case None => None
    case Some(rest) => if '/' in rest then None else PathUnescape(rest)
  }

  /** The namespace and name a server reads off a path with two segments below the rules root. */
  function ReadGroupPath(path: Text): Option<(Text, Text)> {
    match UnderRules(path)
    case None => None
    case Some(rest) => ReadTwoSegments(rest)
  }

  function ReadTwoSegments(rest: Text): Option<(Text, Text)> {
    match SplitAtSlash(rest)
    case None => None
    case Some((first, second)) =>
      if '/' in second then None else
      match (PathUnescape(first), PathUnescape(second))
      case (Some(namespace), Some(name)) => Some((namespace, name))
      case _ => None
  }

  lemma SegmentsDecode(namespace: Text, name: Text)
    ensures ReadTwoSegments(PathEscape(namespace) + "/" + PathEscape(name)) == Some((namespace, name))
  {
    var first, second := PathEscape(namespace), PathEscape(name);
    SegmentIsSlashFree(namespace);
    SegmentIsSlashFree(name);
    SplitIs(first + "/" + second, first, second);
  }

  lemma UnderRulesStrips(rest: Text)
    ensures UnderRules(RULES + rest) == Some(rest)
  {
    assert (RULES + rest)[|RULES|..] == rest;
  }

  lemma SegmentIsSlashFree(s: Text)
    ensures '/' !in PathEscape(s) && PathUnescape(PathEscape(s)) == Some(s)
  {
    EscapeDecodes(s);
    assert !Kept('/');
  }

  /** The server reads back exactly the namespace and name the client put in, slashes and all. */
  lemma PathsDecode(namespace: Text, name: Text)
    ensures ReadNamespacePath(NamespacePath(namespace)) == Some(namespace)
    ensures ReadGroupPath(GroupPath(namespace, name)) == Some((namespace, name))
  {
    var first, second := PathEscape(namespace), PathEscape(name);
    SegmentIsSlashFree(namespace);
    UnderRulesStrips(first);
    assert GroupPath(namespace, name) == RULES + (first + "/" + second);
    UnderRulesStrips(first + "/" + second);
    SegmentsDecode(namespace, name);
  }

  datatype Component = RulerApi | AlertmanagerApi

  /** The base URLs of a client, trailing slash trimmed by NewClient. */
  datatype Bases = Bases(uri: Text, rulerURI: Text, alertmanagerURI: Text)

  /** strings.TrimSuffix(s, "/") */
  function TrimSlash(s: Text): Text {
    if s != "" && s[|s| - 1] == '/' then s[..|s| - 1] else s
  }

  function NewBases(uri: Text, rulerURI: Text, alertmanagerURI: Text): Bases {
    Bases(TrimSlash(uri), TrimSlash(rulerURI), TrimSlash(alertmanagerURI))
  }

  /** resolveURI */
  function ResolveURI(b: Bases, component: Component, path: Text): Text {
    match component
    case RulerApi => (if b.rulerURI != "" then b.rulerURI else b.uri) + path
    case AlertmanagerApi => (if b.alertmanagerURI != "" then b.alertmanagerURI else b.uri) + path
  }

  predicate EndsInSlash(s: Text) {
    s != "" && s[|s| - 1] == '/'
  }

  /** Each component answers under its own base URL if it has one, else under the common one, less one final slash;
      a slash alone is as good as no base URL, and the other component's is without effect. */
  lemma BaseExactly(uri: Text, own: Text, other: Text, path: Text)
    ensures var base := if own == "" || own == "/" then uri else own;
      var url := (if EndsInSlash(base) then base[..|base| - 1] else base) + path;
      && ResolveURI(NewBases(uri, own, other), RulerApi, path) == url
      && ResolveURI(NewBases(uri, other, own), AlertmanagerApi, path) == url
  {
    assert TrimSlash(own) == "" <==> own == "" || own == "/";
  }

  /** Distinct (namespace, name) pairs have distinct URLs, whatever bytes they are made of. */
  lemma AddressesInjective(b: Bases, namespace: Text, name: Text, namespace': Text, name': Text)
    ensures ResolveURI(b, RulerApi, GroupPath(namespace, name)) == ResolveURI(b, RulerApi, GroupPath(namespace', name'))
       <==> namespace == namespace' && name == name'
  {
    PathsDecode(namespace, name);
    PathsDecode(namespace', name');
    var base := ResolveURI(b, RulerApi, "");
    var u := ResolveURI(b, RulerApi, GroupPath(namespace, name));
    var u' := ResolveURI(b, RulerApi, GroupPath(namespace', name'));
    assert u[|base|..] == GroupPath(namespace, name) && u'[|base|..] == GroupPath(namespace', name');
  }

  // --------------------------------------------------------------------------------------------------
  // In other words

  /** The bytes that stand for themselves; every other byte is a percent sign and two hexadecimal digits. */
  lemma KeptExactly(c: Octet)
    ensures EscapeByte(c) == [c] <==>
      || 'a' <= c <= 'z' || 'A' <= c <= 'Z' || '0' <= c <= '9'
      || c in {'-', '_', '.', '~', '$', '&', '+', ':', '=', '@'}
    ensures |EscapeByte(c)| == 1 || (|EscapeByte(c)| == 3 && EscapeByte(c)[0] == '%')
  {
  }

  lemma KnownSegment()
    ensures PathEscape("a/b") == "a%2Fb" && PathEscape("%") == "%25"
  {
    assert PathEscape("b") == "b" by {
      assert "b"[1..] == "";
    }
    assert "/b"[1..] == "b" && EscapeByte('/') == "%2F";
    assert PathEscape("/b") == "%2Fb";
    assert "a/b"[1..] == "/b" && "%"[1..] == "";
  }

  /** The two paths, spelt out. */
  lemma PathsExactly(namespace: Text, name: Text)
    ensures NamespacePath(namespace) == "/config/v1/rules/" + PathEscape(namespace)
    ensures GroupPath(namespace, name) == "/config/v1/rules/" + PathEscape(namespace) + "/" + PathEscape(name)
  {
  }
}
