/**
 * The NSS key-log text format (`SSLKEYLOGFILE`): one line per secret,
 * `LABEL SP hex(client_random) SP hex(secret) LF`. Labels are the fixed
 * record kinds the probe writes.
 */
module KeyLog {
  import opened Wrappers
  import opened Bytes

  const LabelTls12: string := "CLIENT_RANDOM"
  const LabelClientHandshake: string := "CLIENT_HANDSHAKE_TRAFFIC_SECRET"
  const LabelServerHandshake: string := "SERVER_HANDSHAKE_TRAFFIC_SECRET"
  const LabelClientTraffic: string := "CLIENT_TRAFFIC_SECRET_0"
  const LabelServerTraffic: string := "SERVER_TRAFFIC_SECRET_0"
  const LabelExporterSecret: string := "EXPORTER_SECRET"

  datatype Line = Line(tag: string, clientRandom: seq<byte>, secret: seq<byte>)

  /** A tag that cannot be confused with the field or line separators. */
  predicate PlainLabel(tag: string) {
    ' ' !in tag && '\n' !in tag
  }

  predicate PlainLabels(ls: seq<Line>) {
    forall i :: 0 <= i < |ls| ==> PlainLabel(ls[i].tag)
  }

  /** The six labels contain neither separator. */
  lemma LabelsArePlain()
    ensures PlainLabel(LabelTls12)
    ensures PlainLabel(LabelClientHandshake)
    ensures PlainLabel(LabelServerHandshake)
    ensures PlainLabel(LabelClientTraffic)
    ensures PlainLabel(LabelServerTraffic)
    ensures PlainLabel(LabelExporterSecret)
  {
    LabelTls12IsPlain();
    LabelClientHandshakeIsPlain();
    LabelServerHandshakeIsPlain();
    LabelClientTrafficIsPlain();
    LabelServerTrafficIsPlain();
    LabelExporterSecretIsPlain();
  }

  lemma LabelTls12IsPlain() ensures PlainLabel(LabelTls12) {}
  lemma LabelClientHandshakeIsPlain() ensures PlainLabel(LabelClientHandshake) {}
  lemma LabelServerHandshakeIsPlain() ensures PlainLabel(LabelServerHandshake) {}
  lemma LabelClientTrafficIsPlain() ensures PlainLabel(LabelClientTraffic) {}
  lemma LabelServerTrafficIsPlain() ensures PlainLabel(LabelServerTraffic) {}
  lemma LabelExporterSecretIsPlain() ensures PlainLabel(LabelExporterSecret) {}

  /** One `fmt.Sprintf("%s %02x %02x\n", tag, clientRandom, secret)`. */
  function Format(l: Line): string {
    Body(l) + "\n"
  }

  /** The text of a buffer built by writing the lines one after another. */
  function Render(ls: seq<Line>): string {
    if ls == [] then "" else Format(ls[0]) + Render(ls[1..])
  }

  /** Writing one more line appends its text to the buffer. */
  lemma {:induction false} RenderSnoc(ls: seq<Line>, l: Line)
    ensures Render(ls + [l]) == Render(ls) + Format(l)
  {
    if ls == [] {
      assert [l][1..] == [];
    } else {
      assert (ls + [l])[1..] == ls[1..] + [l];
      RenderSnoc(ls[1..], l);
    }
  }

  function IndexOf(s: string, c: char): (r: Option<nat>)
    ensures r.Some? ==> r.value < |s| && s[r.value] == c
    ensures r.Some? ==> forall j :: 0 <= j < r.value ==> s[j] != c
    ensures r.None? ==> forall j :: 0 <= j < |s| ==> s[j] != c
  {
    if s == [] then None
    else if s[0] == c then Some(0)
    else match IndexOf(s[1..], c)
      case None => None
      case Some(i) => Some(i + 1)
  }

  /** The first occurrence of `c` is the separator placed after a `c`-free prefix. */
  lemma IndexOfSeparator(a: string, c: char, b: string)
    requires c !in a
    ensures IndexOf(a + [c] + b, c) == Some(|a|)
  {
    var s := a + [c] + b;
    assert s[|a|] == c;
    assert forall j :: 0 <= j < |a| ==> s[j] == a[j];
  }

  /** The text before and after the first `c`, if there is one. */
  function SplitAt(s: string, c: char): (r: Option<(string, string)>)
    ensures r.Some? ==> |r.value.1| < |s|
  {
    match IndexOf(s, c)
    case None => None
    case Some(i) => Some((s[..i], s[i + 1..]))
  }

  lemma SplitAtSeparator(a: string, c: char, b: string)
    requires c !in a
    ensures SplitAt(a + [c] + b, c) == Some((a, b))
  {
    IndexOfSeparator(a, c, b);
    var s := a + [c] + b;
    assert s[..|a|] == a;
    assert s[|a| + 1..] == b;
  }

  /** Splits `LABEL SP hex SP hex` (without the line feed) back into a line. */
  function ParseLine(s: string): Option<Line> {
    match SplitAt(s, ' ')
    case None => None
    case Some((tag, rest)) =>
      match SplitAt(rest, ' ')
      case None => None
      case Some((h1, h2)) =>
        match (Unhex(h1), Unhex(h2))
        case (Some(cr), Some(secret)) => Some(Line(tag, cr, secret))
        case _ => None
  }

  /** Splits a key-log text into its lines. */
  function Parse(s: string): Option<seq<Line>>
    decreases |s|
  {
    if s == [] then Some([])
    else match SplitAt(s, '\n')
      case None => None
      case Some((first, rest)) =>
        match (ParseLine(first), Parse(rest))
        case (Some(l), Some(ls)) => Some([l] + ls)
        case _ => None
  }

  lemma HexIsPlain(s: seq<byte>)
    ensures ' ' !in Hex(s) && '\n' !in Hex(s)
  {
    HexDigitsOnly(s);
  }

  /** The text of a line without its line feed. */
  function Body(l: Line): string {
    l.tag + " " + Hex(l.clientRandom) + " " + Hex(l.secret)
  }

  lemma ParseBody(l: Line)
    requires PlainLabel(l.tag)
    ensures ParseLine(Body(l)) == Some(l)
    ensures '\n' !in Body(l)
  {
    var h1, h2 := Hex(l.clientRandom), Hex(l.secret);
    HexIsPlain(l.clientRandom);
    HexIsPlain(l.secret);
    assert Body(l) == l.tag + [' '] + (h1 + [' '] + h2);
    SplitAtSeparator(l.tag, ' ', h1 + [' '] + h2);
    SplitAtSeparator(h1, ' ', h2);
    UnhexHex(l.clientRandom);
    UnhexHex(l.secret);
  }

  /** The key-log text decodes back to exactly the lines that were written. */
  lemma {:induction false} ParseRender(ls: seq<Line>)
    requires PlainLabels(ls)
    ensures Parse(Render(ls)) == Some(ls)
  {
    if ls != [] {
      var l, s := ls[0], Render(ls);
      ParseBody(l);
      assert s == Body(l) + ['\n'] + Render(ls[1..]);
      SplitAtSeparator(Body(l), '\n', Render(ls[1..]));
      assert SplitAt(s, '\n') == Some((Body(l), Render(ls[1..])));
      ParseRender(ls[1..]);
      assert Parse(s) == Some([l] + ls[1..]);
      assert [l] + ls[1..] == ls;
    }
  }

  /** The session a key-log entry belongs to: the client random of its first line. */
  function SessionOf(entry: string): Option<seq<byte>> {
    match Parse(entry)
    case Some(ls) => if ls == [] then None else Some(ls[0].clientRandom)
    case None => None
  }

  lemma SessionOfRender(ls: seq<Line>)
    requires PlainLabels(ls) && ls != []
    ensures SessionOf(Render(ls)) == Some(ls[0].clientRandom)
  {
    ParseRender(ls);
  }
}
