/** The proxy's error taxonomy (package `proxyerror`): a numeric code, the
    moment of creation and a message built from the caller's fragments. */
module ProxyErrors {
  import opened Wrappers
  import opened Strings
  import opened Decimal

  /** What goes between the message fragments. */
  const Separator: string := ": "

  /** The creation instant. The model never inspects a clock: a timestamp is
      known only through its rendering in the fixed day/month/year-time layout,
      and whoever creates an error supplies it. */
  datatype Timestamp = Timestamp(formatted: string)

  datatype ProxyError = ProxyError(code: int, time: Timestamp, message: string)

  /** The five kinds of error the factories produce. */
  datatype Kind = BrokersNotSet | Connection | ResourceClose | ResourceClosed | ResourceWrite

  /** The numeric code each factory stamps on its errors. */
  function Code(kind: Kind): (c: int)
    ensures 1 <= c <= 5
  {
    match kind
    case BrokersNotSet => 1
    case Connection => 2
    case ResourceClose => 3
    case ResourceClosed => 4
    case ResourceWrite => 5
  }

  /** The kind an error code stands for, if any. */
  function KindOf(code: int): (r: Option<Kind>)
    ensures r.Some? <==> 1 <= code <= 5
  {
    if code == 1 then Some(BrokersNotSet)
    else if code == 2 then Some(Connection)
    else if code == 3 then Some(ResourceClose)
    else if code == 4 then Some(ResourceClosed)
    else if code == 5 then Some(ResourceWrite)
    else None
  }

  /** Decoding a factory's code gives that factory's kind back. */
  lemma KindCodeRoundTrip(kind: Kind)
    ensures KindOf(Code(kind)) == Some(kind)
  {
  }

  /** Every code that names a kind is the code of that kind. */
  lemma CodeKindRoundTrip(code: int)
    ensures KindOf(code).Some? ==> Code(KindOf(code).value) == code
  {
  }

  /** Distinct factories never share a code. */
  lemma CodesDistinct(k1: Kind, k2: Kind)
    ensures Code(k1) == Code(k2) <==> k1 == k2
  {
    KindCodeRoundTrip(k1);
    KindCodeRoundTrip(k2);
  }

  predicate NoneContainsSeparator(messages: seq<string>) {
    forall i :: 0 <= i < |messages| ==> !Contains(messages[i], Separator)
  }

  lemma SeparatorBorderless()
    ensures Borderless(Separator)
  {
    assert Separator[0] == ':' && Separator[1] == ' ';
    assert Separator[1..][0] != Separator[..1][0];
  }

  /** An error with the given code, stamped `now`, whose message is the
      fragments joined by `": "`: nothing for no fragments, a lone fragment
      as it is, and otherwise the first fragment, the separator, and the
      message the remaining fragments would make. */
  function CreateError(code: int, now: Timestamp, messages: seq<string>): (e: ProxyError)
    ensures e.code == code && e.time == now
    ensures |messages| == 0 ==> e.message == ""
    ensures |messages| == 1 ==> e.message == messages[0]
    ensures |messages| >= 2 ==>
              e.message == messages[0] + Separator + CreateError(code, now, messages[1..]).message
  {
    ProxyError(code, now, Join(messages, Separator))
  }

  /** A message joined from fragments that hold no separator splits back into
      exactly those fragments. */
  lemma CreatedMessageSplitsBack(code: int, now: Timestamp, messages: seq<string>)
    requires |messages| >= 1 && NoneContainsSeparator(messages)
    ensures Split(CreateError(code, now, messages).message, Separator) == messages
  {
    SeparatorBorderless();
    SplitJoin(messages, Separator);
  }

  /** The error the factory of `kind` creates. */
  function Raise(kind: Kind, now: Timestamp, messages: seq<string>): (e: ProxyError)
    ensures KindOf(e.code) == Some(kind)
    ensures e.time == now && e.message == CreateError(e.code, now, messages).message
  {
    KindCodeRoundTrip(kind);
    CreateError(Code(kind), now, messages)
  }

  /** The code of a created error depends on the factory alone: whatever the
      messages and timestamps, two errors share a code exactly when they come
      from the same factory. */
  lemma CodeDependsOnlyOnFactory(k1: Kind, k2: Kind, t1: Timestamp, t2: Timestamp,
                                 m1: seq<string>, m2: seq<string>)
    ensures Raise(k1, t1, m1).code == Raise(k2, t2, m2).code <==> k1 == k2
  {
    CodesDistinct(k1, k2);
  }

  function BrokersNotSetError(now: Timestamp, messages: seq<string>): (e: ProxyError)
    ensures e.code == 1 && KindOf(e.code) == Some(BrokersNotSet)
    ensures e == Raise(BrokersNotSet, now, messages)
  {
    CreateError(1, now, messages)
  }

  function ConnectionError(now: Timestamp, messages: seq<string>): (e: ProxyError)
    ensures e.code == 2 && KindOf(e.code) == Some(Connection)
    ensures e == Raise(Connection, now, messages)
  {
    CreateError(2, now, messages)
  }

  function ResourceCloseError(now: Timestamp, messages: seq<string>): (e: ProxyError)
    ensures e.code == 3 && KindOf(e.code) == Some(ResourceClose)
    ensures e == Raise(ResourceClose, now, messages)
  {
    CreateError(3, now, messages)
  }

  function ResourceClosedError(now: Timestamp, messages: seq<string>): (e: ProxyError)
    ensures e.code == 4 && KindOf(e.code) == Some(ResourceClosed)
    ensures e == Raise(ResourceClosed, now, messages)
  {
    CreateError(4, now, messages)
  }

  function ResourceWriteError(now: Timestamp, messages: seq<string>): (e: ProxyError)
    ensures e.code == 5 && KindOf(e.code) == Some(ResourceWrite)
    ensures e == Raise(ResourceWrite, now, messages)
  {
    CreateError(5, now, messages)
  }

  /** The text of an error: `<time>: Error <code>: <message>`. */
  function Render(e: ProxyError): string {
    e.time.formatted + ": Error " + IntToString(e.code) + Separator + e.message
  }

  /** Reads a rendered error back, given the rendering of its timestamp. */
  function ParseRendered(s: string, timeText: string): Option<(int, string)> {
    var head := timeText + ": Error ";
    if |s| < |head| || s[..|head|] != head then None
    else ParseCodeAndMessage(s[|head|..])
  }

  /** Reads `<code>: <message>`: the code runs up to the first separator. */
  function ParseCodeAndMessage(rest: string): Option<(int, string)> {
    match Index(rest, Separator)
    case None => None
    case Some(k) =>
      match ParseInt(rest[..k])
      case None => None
      case Some(code) => Some((code, rest[k + |Separator|..]))
  }

  lemma CodeAndMessageRoundTrip(code: int, message: string)
    ensures ParseCodeAndMessage(IntToString(code) + Separator + message) == Some((code, message))
  {
    var c := IntToString(code);
    var rest := c + Separator + message;
    CodeTextHasNoSeparator(code);
    SeparatorBorderless();
    IndexAfterFirst(c, Separator, message);
    assert rest[..|c|] == c;
    IntRoundTrip(code);
    assert rest[|c| + |Separator|..] == message;
  }

  /** A rendered code holds no colon, so it cannot contain the separator. */
  lemma CodeTextHasNoSeparator(code: int)
    ensures !Contains(IntToString(code), Separator)
  {
    var s := IntToString(code);
    forall j | 0 <= j <= |s| ensures !OccursAt(s, Separator, j) {
      if j + 2 <= |s| {
        assert s[j..j + 2][0] == s[j];
        assert s[j] != ':';
      }
    }
  }

  /** The rendering shows the timestamp, then the code, then the message, and
      both code and message can be recovered from it. */
  lemma RenderRoundTrip(e: ProxyError)
    ensures ParseRendered(Render(e), e.time.formatted) == Some((e.code, e.message))
  {
    var head := e.time.formatted + ": Error ";
    var rest := IntToString(e.code) + Separator + e.message;
    var s := Render(e);
    assert s == head + rest;
    assert s[..|head|] == head;
    assert s[|head|..] == rest;
    CodeAndMessageRoundTrip(e.code, e.message);
  }
}
