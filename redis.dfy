/** The Redis repository (internal/repositories/redis.go) over an abstract Redis:
    a payments stream with consumer groups, and one score-indexed sorted set of
    processed payments per processor, scored by processedAt in Unix milliseconds.
    Each Redis round trip may fail with a connection error, given as `fault`. */
module Repositories {
  import opened Wrappers
  import opened Dtos
  import opened TimeLayout
  import opened Digits
  import opened Numbers

  const StreamKey: string := "payments:stream"
  const ReadGroup: string := "read-group"
  const BusyGroupReply: string := "BUSYGROUP Consumer Group name already exists"

  /** A stream field as the client hands it back. */
  datatype FieldValue = Text(text: string) | Number(x: real) | OtherValue

  datatype StreamEntry = StreamEntry(id: nat, fields: map<string, FieldValue>)

  /** A consumer group: how many entries it has delivered, and the delivered but
      unacknowledged ones (its pending entries list), by entry id, with their consumer. */
  datatype Group = Group(delivered: nat, pending: map<nat, string>)

  /** A member of a processed-payments sorted set: the JSON of a ProcessedPayment,
      or text that does not decode as one. */
  datatype Member = Encoded(payment: ProcessedPayment) | Malformed(raw: string)

  datatype Scored = Scored(member: Member, score: int)

  // ---------------------------------------------------------------------------
  // Group creation

  /** strings.Contains: sub occurs somewhere in s. */
  function Contains(s: string, sub: string): (b: bool)
    ensures sub <= s ==> b
    ensures b ==> |sub| <= |s|
    ensures b <==> exists i :: MatchAt(s, sub, i)
  {
    assert s[0..] == s;
    MatchOffsets(s, sub);
    exists i :: 0 <= i <= |s| && sub <= s[i..]
  }

  /** A suffix that starts with sub is a slice equal to sub, and back. */
  lemma MatchOffsets(s: string, sub: string)
    ensures (exists i :: 0 <= i <= |s| && sub <= s[i..])
            <==> (exists i :: MatchAt(s, sub, i))
  {
    if i :| 0 <= i <= |s| && sub <= s[i..] {
      assert MatchAt(s, sub, i);
    }
    if i :| MatchAt(s, sub, i) {
      assert sub <= s[i..];
    }
  }

  /** The |sub| characters of s starting at offset i are sub. */
  predicate MatchAt(s: string, sub: string, i: int) {
    0 <= i <= |s| - |sub| && s[i..i + |sub|] == sub
  }

  /** createStreamGroup's error filter: a BUSYGROUP reply (the group exists) is success. */
  function GroupCreationError(reply: Option<string>): (err: Option<string>)
    ensures err.None? <==> reply.None? || Contains(reply.value, "BUSYGROUP")
    ensures err.Some? ==> err == reply
  {
    if reply.Some? && !Contains(reply.value, "BUSYGROUP") then reply else None
  }

  lemma BusyGroupIsSuccess()
    ensures GroupCreationError(Some(BusyGroupReply)) == None
  {
    assert BusyGroupReply[0..] == BusyGroupReply;
  }

  // ---------------------------------------------------------------------------
  // Stream field encoding

  /** The fields AddToStream writes. The amount keeps its number; the time is
      written in the millisecond layout. */
  function EncodeFields(p: PaymentRequest): (fields: map<string, FieldValue>)
    requires Valid(p.requestedAt)
    ensures fields.Keys == {"correlationId", "amount", "requestedAt"}
    ensures TextField(fields, "correlationId") == p.correlationId && fields["amount"] == Number(p.amount)
    ensures ParseMillis(TextField(fields, "requestedAt")) == Ok(p.requestedAt)
  {
    map["correlationId" := Text(p.correlationId),
        "amount" := Number(p.amount),
        "requestedAt" := Text(FormatMillis(p.requestedAt))]
  }

  datatype ReadError =
    | ReadFailed(reason: string)    // "Erro ao ler stream de pagamentos"
    | BadAmount(text: string)       // "Erro ao converter string para float"
    | BadTimestamp(text: string)    // "Erro ao converter data"

  /** A text field, or "" when it is missing or not text (Go's unchecked type assertion). */
  function TextField(fields: map<string, FieldValue>, key: string): (s: string)
    ensures key in fields && fields[key].Text? ==> s == fields[key].text
    ensures key !in fields || !fields[key].Text? ==> s == ""
  {
    if key in fields && fields[key].Text? then fields[key].text else ""
  }

  /** ReadFromStream's decoding of one message: a number amount is taken as it
      is, a text amount must parse, anything else reads as 0; requestedAt must
      be in the millisecond layout; the entry id becomes RedisStreamId. */
  function DecodeEntry(e: StreamEntry): (r: Result<PaymentRequest, ReadError>)
    ensures r.Ok? ==> r.value.redisStreamId == e.id && r.value.correlationId == TextField(e.fields, "correlationId")
    ensures r.Ok? ==> ParseMillis(TextField(e.fields, "requestedAt")) == Ok(r.value.requestedAt)
    ensures r.Ok? && "amount" in e.fields && e.fields["amount"].Number? ==> r.value.amount == e.fields["amount"].x
    ensures r.Ok? && "amount" in e.fields && e.fields["amount"].Text? ==>
      ParseDecimal(e.fields["amount"].text) == Some(r.value.amount)
    ensures r.Ok? && ("amount" !in e.fields || e.fields["amount"].OtherValue?) ==> r.value.amount == 0.0
    ensures "amount" in e.fields && e.fields["amount"].Text? && ParseDecimal(e.fields["amount"].text).None? ==>
      r == Err(BadAmount(e.fields["amount"].text))
    ensures r.Err? <==>
      || ("amount" in e.fields && e.fields["amount"].Text? && ParseDecimal(e.fields["amount"].text).None?)
      || ParseMillis(TextField(e.fields, "requestedAt")).Err?
  {
    var amount: Result<real, ReadError> :=
      if "amount" !in e.fields then Ok(0.0)
      else match e.fields["amount"]
        case Number(x) => Ok(x)
        case Text(s) => (match ParseDecimal(s) case Some(x) => Ok(x) case None => Err(BadAmount(s)))
        case OtherValue => Ok(0.0);
    if amount.Err? then Err(amount.error)
    else
      var stamp := TextField(e.fields, "requestedAt");
      match ParseMillis(stamp)
      case Err(_) => Err(BadTimestamp(stamp))
      case Ok(t) => Ok(PaymentRequest(TextField(e.fields, "correlationId"), amount.value, t, e.id))
  }

  /** What AddToStream writes, ReadFromStream reads back: the same payment, its
      time at millisecond precision, and the entry id as RedisStreamId. */
  lemma DecodeEncodedEntry(p: PaymentRequest, id: nat)
    requires Valid(p.requestedAt)
    ensures DecodeEntry(StreamEntry(id, EncodeFields(p))) == Ok(p.(redisStreamId := id))
  {
  }

  /** An amount written as text with two decimals, as a client other than
      AddToStream may store it, is read back as exactly that amount. */
  lemma DecodeCentsTextEntry(id: nat, correlationId: string, cents: int, stamp: DateTime)
    requires Valid(stamp)
    ensures DecodeEntry(StreamEntry(id, map["correlationId" := Text(correlationId),
                                            "amount" := Text(CentsText(cents)),
                                            "requestedAt" := Text(FormatMillis(stamp))]))
            == Ok(PaymentRequest(correlationId, cents as real / 100.0, stamp, id))
  {
    ParseCentsText(cents);
    DecodeTextAmount(id, correlationId, CentsText(cents), cents as real / 100.0, stamp);
  }

  /** An amount text that parses is decoded as its value. */
  lemma DecodeTextAmount(id: nat, correlationId: string, text: string, v: real, stamp: DateTime)
    requires Valid(stamp) && ParseDecimal(text) == Some(v)
    ensures DecodeEntry(StreamEntry(id, map["correlationId" := Text(correlationId),
                                            "amount" := Text(text),
                                            "requestedAt" := Text(FormatMillis(stamp))]))
            == Ok(PaymentRequest(correlationId, v, stamp, id))
  {
  }

  // ---------------------------------------------------------------------------
  // Sorted sets

  /** No element occurs twice. */
  predicate Distinct<T(==)>(s: seq<T>) {
    forall i, j :: 0 <= i < j < |s| ==> s[i] != s[j]
  }

  predicate DistinctMembers(z: seq<Scored>) {
    forall i, j :: 0 <= i < j < |z| ==> z[i].member != z[j].member
  }

  /** ZADD: a new member is added; an existing member gets the new score. */
  function ZAdd(z: seq<Scored>, m: Member, score: int): (z': seq<Scored>)
    requires DistinctMembers(z)
    ensures DistinctMembers(z')
    ensures Scored(m, score) in z'
    ensures forall x :: x in z' && x.member != m ==> x in z
    ensures forall x :: x in z && x.member != m ==> x in z'
    ensures |z'| == |z| || |z'| == |z| + 1
  {
    if z == [] then [Scored(m, score)]
    else if z[0].member == m then [Scored(m, score)] + z[1..]
    else [z[0]] + ZAdd(z[1..], m, score)
  }

  /** ZRANGEBYSCORE min max: the members whose score lies in [from, to]. */
  function InRange(z: seq<Scored>, from: int, to: int): (ms: seq<Member>)
    ensures |ms| <= |z|
    ensures forall m :: m in ms <==> exists x :: x in z && x.member == m && from <= x.score <= to
  {
    if z == [] then []
    else
      var rest := InRange(z[..|z| - 1], from, to);
      var x := z[|z| - 1];
      assert forall y :: y in z <==> y in z[..|z| - 1] || y == x;
      if from <= x.score <= to then rest + [x.member] else rest
  }

  /** The members that decode, in order. */
  function Decoded(ms: seq<Member>): (ps: seq<ProcessedPayment>)
    ensures |ps| <= |ms|
    ensures forall p :: p in ps <==> Encoded(p) in ms
  {
    if ms == [] then []
    else
      var rest := Decoded(ms[..|ms| - 1]);
      assert forall m :: m in ms <==> m in ms[..|ms| - 1] || m == ms[|ms| - 1];
      if ms[|ms| - 1].Encoded? then rest + [ms[|ms| - 1].payment] else rest
  }

  /** Each member of a sorted set is listed at most once by ZRANGEBYSCORE. */
  lemma {:induction false} InRangeDistinct(z: seq<Scored>, from: int, to: int)
    requires DistinctMembers(z)
    ensures Distinct(InRange(z, from, to))
  {
    if z != [] {
      var init := z[..|z| - 1];
      InRangeDistinct(init, from, to);
      var rest := InRange(init, from, to);
      var last := z[|z| - 1].member;
      forall m | m in rest ensures m != last {
        var y :| y in init && y.member == m && from <= y.score <= to;
        var k :| 0 <= k < |init| && init[k] == y;
      }
      if from <= z[|z| - 1].score <= to {
        var ms := rest + [last];
        forall i, j | 0 <= i < j < |ms| ensures ms[i] != ms[j] {
          assert ms[i] == rest[i];
          if j < |rest| {
            assert ms[j] == rest[j];
          } else {
            assert rest[i] in rest;
          }
        }
      }
    }
  }

  /** A payment is decoded exactly as many times as its encoding occurs among
      the members: malformed members add nothing, and nothing is counted twice. */
  lemma {:induction false} DecodedCount(ms: seq<Member>)
    ensures forall p :: multiset(Decoded(ms))[p] == multiset(ms)[Encoded(p)]
  {
    if ms != [] {
      var init, last := ms[..|ms| - 1], ms[|ms| - 1];
      DecodedCount(init);
      assert ms == init + [last];
    }
  }

  /** Decoding keeps distinct members distinct. */
  lemma {:induction false} DecodedDistinct(ms: seq<Member>)
    requires Distinct(ms)
    ensures Distinct(Decoded(ms))
  {
    if ms != [] {
      var init := ms[..|ms| - 1];
      var last := ms[|ms| - 1];
      DecodedDistinct(init);
    }
  }

  /** No payment is counted twice in a summary window, because a sorted set
      holds each member once. */
  lemma WindowDistinct(z: seq<Scored>, from: int, to: int)
    requires DistinctMembers(z)
    ensures Distinct(Window(z, from, to))
  {
    InRangeDistinct(z, from, to);
    DecodedDistinct(InRange(z, from, to));
  }

  /** Decoding one more member adds its payment, if it decodes, to the list and to the total. */
  lemma DecodedStep(ms: seq<Member>, i: nat)
    requires i < |ms|
    ensures Decoded(ms[..i + 1]) == Decoded(ms[..i]) + (if ms[i].Encoded? then [ms[i].payment] else [])
    ensures Total(Decoded(ms[..i + 1])) == Total(Decoded(ms[..i])) + (if ms[i].Encoded? then ms[i].payment.amount else 0.0)
  {
    assert ms[..i + 1][..i] == ms[..i];
    var ps := Decoded(ms[..i]);
    if ms[i].Encoded? {
      assert (ps + [ms[i].payment])[..|ps|] == ps;
    }
  }

  function Total(ps: seq<ProcessedPayment>): real {
    if ps == [] then 0.0 else Total(ps[..|ps| - 1]) + ps[|ps| - 1].amount
  }

  /** The payments a summary over [from, to] counts. */
  function Window(z: seq<Scored>, from: int, to: int): seq<ProcessedPayment> {
    Decoded(InRange(z, from, to))
  }

  // ---------------------------------------------------------------------------
  // The repository

  function IdsOf(entries: seq<StreamEntry>): set<nat> {
    set e | e in entries :: e.id
  }

  class RedisRepository {
    var stream: seq<StreamEntry>
    var nextId: nat
    var groups: map<string, Group>
    var processedDefault: seq<Scored>
    var processedFallback: seq<Scored>

    /** Stream ids grow and stay below nextId; a group has delivered a prefix
        of the stream and only those entries can be pending; each sorted set
        holds a member once. */
    ghost predicate Valid()
      reads this
    {
      && (forall i :: 0 <= i < |stream| ==> stream[i].id < nextId)
      && (forall i, j :: 0 <= i < j < |stream| ==> stream[i].id < stream[j].id)
      && (forall g :: g in groups ==>
            groups[g].delivered <= |stream| &&
            groups[g].pending.Keys <= IdsOf(stream[..groups[g].delivered]))
      && DistinctMembers(processedDefault)
      && DistinctMembers(processedFallback)
    }

    /** processedSetKey: the sorted set of one processor. */
    function Index(api: PaymentAPI): (z: seq<Scored>)
      reads this
      ensures api == DefaultApi ==> z == processedDefault
      ensures api == FallbackApi ==> z == processedFallback
    {
      if api == DefaultApi then processedDefault else processedFallback
    }

    /** NewRedisRepository against an empty Redis: the group is created at the
        end of the (new) stream. */
    constructor ()
      ensures Valid()
      ensures stream == [] && nextId == 0
      ensures groups == map[ReadGroup := Group(0, map[])]
      ensures processedDefault == [] && processedFallback == []
    {
      stream, nextId := [], 0;
      groups := map[ReadGroup := Group(0, map[])];
      processedDefault, processedFallback := [], [];
    }

    /** createStreamGroup (XGROUP CREATE ... $ MKSTREAM): a new group starts at
        the end of the stream; an existing group answers BUSYGROUP, which is
        success, so creating a group twice is the same as creating it once. */
    method CreateStreamGroup(group: string, fault: Option<string>) returns (err: Option<string>)
      requires Valid()
      modifies this
      ensures Valid()
      ensures err == (if fault.Some? then GroupCreationError(fault) else None)
      ensures groups == if fault.None? && group !in old(groups)
                        then old(groups)[group := Group(|stream|, map[])] else old(groups)
      ensures stream == old(stream) && nextId == old(nextId)
      ensures processedDefault == old(processedDefault) && processedFallback == old(processedFallback)
    {
      var reply: Option<string>;
      if fault.Some? {
        reply := fault;
      } else if group in groups {
        reply := Some(BusyGroupReply);
      } else {
        groups := groups[group := Group(|stream|, map[])];
        assert stream[..|stream|] == stream;
        reply := None;
      }
      if fault.None? && reply.Some? {
        BusyGroupIsSuccess();
      }
      err := GroupCreationError(reply);
    }

    /** AddToStream (XADD): stamps the payment with now and appends its fields
        with a new, larger id; the stamp is made even when XADD fails. */
    method AddToStream(payment: PaymentRequest, now: DateTime, fault: Option<string>)
      returns (stamped: PaymentRequest, err: Option<string>)
      requires Valid() && TimeLayout.Valid(now)
      modifies this
      ensures Valid()
      ensures stamped == payment.(requestedAt := now)
      ensures err == fault
      ensures stream == if fault.Some? then old(stream)
                        else old(stream) + [StreamEntry(old(nextId), EncodeFields(stamped))]
      ensures nextId == if fault.Some? then old(nextId) else old(nextId) + 1
      ensures groups == old(groups)
      ensures processedDefault == old(processedDefault) && processedFallback == old(processedFallback)
    {
      stamped := payment.(requestedAt := now);
      if fault.Some? {
        err := fault;
        return;
      }
      var entry := StreamEntry(nextId, EncodeFields(stamped));
      forall g | g in groups ensures stream[..groups[g].delivered] == (stream + [entry])[..groups[g].delivered] { }
      stream := stream + [entry];
      nextId := nextId + 1;
      err := None;
    }

    /** ReadFromStream (XREADGROUP ... > COUNT 1 BLOCK 5s): the next entry the
        group has not delivered becomes pending for the consumer and is decoded.
        Nothing new within the block time is not an error but (nil, nil); a
        missing group (after FLUSHDB) is an error. An entry that fails to decode
        stays pending. */
    method ReadFromStream(consumer: string, fault: Option<string>)
      returns (res: Result<Option<PaymentRequest>, ReadError>)
      requires Valid()
      modifies this
      ensures Valid()
      ensures stream == old(stream) && nextId == old(nextId)
      ensures processedDefault == old(processedDefault) && processedFallback == old(processedFallback)
      ensures fault.Some? || ReadGroup !in old(groups) ==> res.Err? && groups == old(groups)
      ensures fault.None? && ReadGroup in old(groups) && old(groups)[ReadGroup].delivered == |stream| ==>
        res == Ok(None) && groups == old(groups)
      ensures fault.None? && ReadGroup in old(groups) && old(groups)[ReadGroup].delivered < |stream| ==>
        var g := old(groups)[ReadGroup];
        var e := stream[g.delivered];
        && groups == old(groups)[ReadGroup := Group(g.delivered + 1, g.pending[e.id := consumer])]
        && res == (match DecodeEntry(e) case Ok(p) => Ok(Some(p)) case Err(x) => Err(x))
    {
      if fault.Some? {
        res := Err(ReadFailed(fault.value));
        return;
      }
      if ReadGroup !in groups {
        res := Err(ReadFailed("NOGROUP No such key '" + StreamKey + "' or consumer group '" + ReadGroup + "'"));
        return;
      }
      var g := groups[ReadGroup];
      if g.delivered == |stream| {
        res := Ok(None);
        return;
      }
      var e := stream[g.delivered];
      assert stream[..g.delivered + 1] == stream[..g.delivered] + [e];
      groups := groups[ReadGroup := Group(g.delivered + 1, g.pending[e.id := consumer])];
      match DecodeEntry(e)
      case Ok(p) => res := Ok(Some(p));
      case Err(x) => res := Err(x);
    }

    /** StoreProcessed: a processedAt outside the millisecond layout is an error
        before anything is queued. Otherwise one transaction adds the record to
        the sorted set of payment.Api only, scored by processedAt in Unix ms,
        and acknowledges messageId; both land, or neither when EXEC fails. The
        acknowledgement queued in the transaction cannot fail. */
    method StoreProcessed(payment: ProcessedPayment, messageId: nat, execFault: Option<string>)
      returns (err: Option<string>)
      requires Valid()
      modifies this
      ensures Valid()
      ensures stream == old(stream) && nextId == old(nextId)
      ensures ParseMillis(payment.processedAt).Err? || execFault.Some? ==>
        && err.Some?
        && groups == old(groups)
        && processedDefault == old(processedDefault) && processedFallback == old(processedFallback)
      ensures ParseMillis(payment.processedAt).Ok? && execFault.None? ==>
        var score := UnixMilli(ParseMillis(payment.processedAt).value);
        && err == None
        && Index(payment.api) == ZAdd(old(Index(payment.api)), Encoded(payment), score)
        && (payment.api == DefaultApi ==> processedFallback == old(processedFallback))
        && (payment.api == FallbackApi ==> processedDefault == old(processedDefault))
        && groups == Acked(old(groups), messageId)
    {
      var parsed := ParseMillis(payment.processedAt);
      if parsed.Err? {
        err := Some("Erro ao converter data");
        return;
      }
      var score := UnixMilli(parsed.value);
      if execFault.Some? {
        err := Some("Erro armazenar pagamento processado: " + execFault.value);
        return;
      }
      if payment.api == DefaultApi {
        processedDefault := ZAdd(processedDefault, Encoded(payment), score);
      } else {
        processedFallback := ZAdd(processedFallback, Encoded(payment), score);
      }
      groups := Acked(groups, messageId);
      err := None;
    }

    /** AckMessage outside a transaction (XACK): the entry leaves the group's
        pending list; acknowledging twice, or an unknown id, changes nothing more. */
    method AckMessage(messageId: nat, fault: Option<string>) returns (err: Option<string>)
      requires Valid()
      modifies this
      ensures Valid()
      ensures err == fault
      ensures groups == if fault.Some? then old(groups) else Acked(old(groups), messageId)
      ensures stream == old(stream) && nextId == old(nextId)
      ensures processedDefault == old(processedDefault) && processedFallback == old(processedFallback)
    {
      if fault.Some? {
        err := fault;
        return;
      }
      groups := Acked(groups, messageId);
      err := None;
    }

    /** FlushDB: everything goes, the stream, its groups and both sorted sets. */
    method FlushDB(fault: Option<string>) returns (err: Option<string>)
      requires Valid()
      modifies this
      ensures Valid()
      ensures err == fault
      ensures nextId == old(nextId)
      ensures fault.None? ==> stream == [] && groups == map[] && processedDefault == [] && processedFallback == []
      ensures fault.Some? ==>
        && stream == old(stream) && groups == old(groups)
        && processedDefault == old(processedDefault) && processedFallback == old(processedFallback)
    {
      if fault.Some? {
        err := fault;
        return;
      }
      stream, groups := [], map[];
      processedDefault, processedFallback := [], [];
      err := None;
    }

    /** GetSummaryByDateRange: counts and sums the payments of api's sorted set
        whose score lies in [from, to], skipping members that do not decode,
        and rounds the sum to cents once, at the end. */
    method GetSummaryByDateRange(api: PaymentAPI, from: int, to: int, fault: Option<string>)
      returns (res: Result<APISummary, string>)
      ensures fault.Some? ==> res.Err?
      ensures fault.None? ==>
        res == Ok(APISummary(|Window(Index(api), from, to)|, RoundCents(Total(Window(Index(api), from, to)))))
    {
      if fault.Some? {
        res := Err("Erro ao buscar pagamentos por data: " + fault.value);
        return;
      }
      var results := InRange(Index(api), from, to);
      var totalRequests, totalAmount := SumDecoded(results);
      totalAmount := RoundCents(totalAmount);
      res := Ok(APISummary(totalRequests, totalAmount));
    }
  }

  /** The loop of GetSummaryByDateRange: counts and sums the members that
      decode, skipping the others. */
  method SumDecoded(results: seq<Member>) returns (totalRequests: int, totalAmount: real)
    ensures totalRequests == |Decoded(results)|
    ensures totalAmount == Total(Decoded(results))
  {
    totalAmount := 0.0;
    totalRequests := 0;
    for i := 0 to |results|
      invariant totalRequests == |Decoded(results[..i])|
      invariant totalAmount == Total(Decoded(results[..i]))
    {
      DecodedStep(results, i);
      match results[i]
      case Malformed(_) =>
        continue;
      case Encoded(payment) =>
        totalAmount := totalAmount + payment.amount;
        totalRequests := totalRequests + 1;
    }
    assert results[..|results|] == results;
  }

  /** XACK's effect: the id leaves the read group's pending list; without the group nothing changes. */
  function Acked(groups: map<string, Group>, id: nat): (g': map<string, Group>)
    ensures g'.Keys == groups.Keys
    ensures ReadGroup in groups ==> g'[ReadGroup].delivered == groups[ReadGroup].delivered
    ensures ReadGroup in groups ==> g'[ReadGroup].pending.Keys == groups[ReadGroup].pending.Keys - {id}
    ensures ReadGroup in groups ==>
      forall k :: k in g'[ReadGroup].pending ==> g'[ReadGroup].pending[k] == groups[ReadGroup].pending[k]
    ensures forall g :: g in groups && g != ReadGroup ==> g'[g] == groups[g]
  {
    if ReadGroup in groups
    then groups[ReadGroup := groups[ReadGroup].(pending := groups[ReadGroup].pending - {id})]
    else groups
  }

  // ---------------------------------------------------------------------------
  // Properties of the sorted sets and the summary

  /** Storing the same record twice leaves the sorted set as storing it once:
      a repeated StoreProcessed is not counted twice. */
  lemma {:induction false} ZAddIdempotent(z: seq<Scored>, m: Member, score: int)
    requires DistinctMembers(z)
    ensures ZAdd(ZAdd(z, m, score), m, score) == ZAdd(z, m, score)
  {
    if z != [] && z[0].member != m {
      ZAddIdempotent(z[1..], m, score);
      var z' := ZAdd(z, m, score);
      assert z'[1..] == ZAdd(z[1..], m, score);
    }
  }

  /** A record stored with a score inside [from, to] is among the payments the
      summary of that window counts. */
  lemma StoredIsCounted(z: seq<Scored>, p: ProcessedPayment, score: int, from: int, to: int)
    requires DistinctMembers(z)
    requires from <= score <= to
    ensures p in Window(ZAdd(z, Encoded(p), score), from, to)
  {
    var z' := ZAdd(z, Encoded(p), score);
    assert Scored(Encoded(p), score) in z';
    assert Encoded(p) in InRange(z', from, to);
  }

  lemma {:induction false} TotalAppend(a: seq<ProcessedPayment>, b: seq<ProcessedPayment>)
    ensures Total(a + b) == Total(a) + Total(b)
  {
    if b != [] {
      TotalAppend(a, b[..|b| - 1]);
      assert (a + b)[..|a + b| - 1] == a + b[..|b| - 1];
    } else {
      assert a + b == a;
    }
  }

  /** An amount that is a whole number of cents. */
  predicate WholeCents(x: real) {
    (x * 100.0).Floor as real == x * 100.0
  }

  lemma {:induction false} TotalWholeCents(ps: seq<ProcessedPayment>)
    requires forall p :: p in ps ==> WholeCents(p.amount)
    ensures WholeCents(Total(ps))
  {
    if ps != [] {
      var init := ps[..|ps| - 1];
      assert forall p :: p in init ==> p in ps;
      TotalWholeCents(init);
      WholeCentsAdd(Total(init), ps[|ps| - 1].amount);
    }
  }

  lemma WholeCentsAdd(x: real, y: real)
    requires WholeCents(x) && WholeCents(y)
    ensures WholeCents(x + y)
  {
    var a := (x * 100.0).Floor;
    var b := (y * 100.0).Floor;
    assert (x + y) * 100.0 == (a + b) as real;
  }

  lemma RoundWholeCents(x: real)
    requires WholeCents(x)
    ensures RoundCents(x) == x
  {
    RoundCentsWhole((x * 100.0).Floor);
  }

  /** With whole-cent amounts, the two processors' rounded totals add up to the
      rounded total of all their payments together. */
  lemma SummariesAddUp(d: seq<ProcessedPayment>, f: seq<ProcessedPayment>)
    requires forall p :: p in d ==> WholeCents(p.amount)
    requires forall p :: p in f ==> WholeCents(p.amount)
    ensures RoundCents(Total(d)) + RoundCents(Total(f)) == RoundCents(Total(d + f))
  {
    TotalAppend(d, f);
    TotalWholeCents(d);
    TotalWholeCents(f);
    TotalWholeCents(d + f);
    RoundWholeCents(Total(d));
    RoundWholeCents(Total(f));
    RoundWholeCents(Total(d + f));
  }

  /** Because each processor's total is rounded on its own, sub-cent amounts
      can make the two summaries miss the rounded grand total by a cent. */
  lemma SubCentAmountsDrift()
    ensures
      var d := [ProcessedPayment("a", DefaultApi, 0.004, "")];
      var f := [ProcessedPayment("b", FallbackApi, 0.004, "")];
      RoundCents(Total(d)) + RoundCents(Total(f)) == 0.0 &&
      RoundCents(Total(d + f)) == 0.01
  {
    var d := [ProcessedPayment("a", DefaultApi, 0.004, "")];
    var f := [ProcessedPayment("b", FallbackApi, 0.004, "")];
    assert (d + f)[..1] == d;
    assert Total(d) == 0.004 && Total(f) == 0.004 && Total(d + f) == 0.008;
    assert Round(0.4) == 0;
    assert Round(0.8) == 1;
  }

  // ---------------------------------------------------------------------------
  // One payment through the repository

  /** The first half of PaymentLifecycle: XADD to an empty Redis, then XREADGROUP. */
  method EnqueueAndRead(payment: PaymentRequest, now: DateTime)
    returns (repo: RedisRepository, read: Result<Option<PaymentRequest>, ReadError>)
    requires TimeLayout.Valid(now)
    ensures fresh(repo) && repo.Valid()
    ensures read == Ok(Some(payment.(requestedAt := now, redisStreamId := 0)))
    ensures repo.processedDefault == [] && repo.processedFallback == []
    ensures ReadGroup in repo.groups && repo.groups[ReadGroup].pending.Keys == {0}
  {
    repo := new RedisRepository();
    var stamped, _ := repo.AddToStream(payment, now, None);
    DecodeEncodedEntry(stamped, 0);
    read := repo.ReadFromStream("worker-1", None);
  }

  /** A payment added to an empty Redis is read back by the group as the same
      payment stamped with now; once stored as processed by the default
      processor at now, the summary of the millisecond now counts it, and
      nothing is left pending. */
  method PaymentLifecycle(payment: PaymentRequest, now: DateTime)
    returns (read: Result<Option<PaymentRequest>, ReadError>, summary: Result<APISummary, string>, pendingAfter: set<nat>)
    requires TimeLayout.Valid(now)
    ensures read == Ok(Some(payment.(requestedAt := now, redisStreamId := 0)))
    ensures summary == Ok(APISummary(1, RoundCents(payment.amount)))
    ensures pendingAfter == {}
  {
    var repo;
    repo, read := EnqueueAndRead(payment, now);
    var record := ProcessedPayment(payment.correlationId, DefaultApi, payment.amount, FormatMillis(now));
    summary, pendingAfter := StoreAndSummarize(repo, record, now);
  }

  /** The second half of PaymentLifecycle: the record is stored and acknowledges
      entry 0, then the default processor's summary of the millisecond at is taken. */
  method StoreAndSummarize(repo: RedisRepository, record: ProcessedPayment, at: DateTime)
    returns (summary: Result<APISummary, string>, pendingAfter: set<nat>)
    requires repo.Valid() && record.api == DefaultApi && repo.processedDefault == []
    requires ReadGroup in repo.groups && repo.groups[ReadGroup].pending.Keys == {0}
    requires ParseMillis(record.processedAt) == Ok(at)
    modifies repo
    ensures summary == Ok(APISummary(1, RoundCents(record.amount)))
    ensures pendingAfter == {}
  {
    var t := UnixMilli(at);
    var _ := repo.StoreProcessed(record, 0, None);
    assert repo.processedDefault == [Scored(Encoded(record), t)];
    SingleRecordWindow(record, t);
    summary := repo.GetSummaryByDateRange(DefaultApi, t, t, None);
    pendingAfter := repo.groups[ReadGroup].pending.Keys;
  }

  /** A set holding one record: the summary of its own millisecond is that record. */
  lemma SingleRecordWindow(r: ProcessedPayment, t: int)
    ensures Window([Scored(Encoded(r), t)], t, t) == [r]
    ensures Total([r]) == r.amount
  {
    var z := [Scored(Encoded(r), t)];
    assert z[..|z| - 1] == [];
    assert InRange([], t, t) == [];
    assert InRange(z, t, t) == [] + [Encoded(r)];
    var ms := [Encoded(r)];
    assert ms[..|ms| - 1] == [];
    assert Decoded([]) == [];
    assert Decoded(ms) == [] + [r];
    var one: seq<ProcessedPayment> := [r];
    assert one[..|one| - 1] == [];
  }

  /** A repository holding one payment in the stream and one processed record. */
  method PopulatedRepository(payment: PaymentRequest, now: DateTime) returns (repo: RedisRepository)
    requires TimeLayout.Valid(now)
    ensures fresh(repo) && repo.Valid()
    ensures |repo.stream| == 1 && |repo.processedFallback| == 1
  {
    repo := new RedisRepository();
    var _, _ := repo.AddToStream(payment, now, None);
    var _ := repo.StoreProcessed(ProcessedPayment(payment.correlationId, FallbackApi, payment.amount, FormatMillis(now)), 0, None);
  }

  /** After FLUSHDB both summaries are zero, and the worker's next read fails
      for want of its consumer group. */
  method FlushedRepository(payment: PaymentRequest, now: DateTime, from: int, to: int)
    returns (defaultSummary: Result<APISummary, string>, fallbackSummary: Result<APISummary, string>,
             read: Result<Option<PaymentRequest>, ReadError>)
    requires TimeLayout.Valid(now)
    ensures defaultSummary == Ok(APISummary(0, 0.0)) && fallbackSummary == Ok(APISummary(0, 0.0))
    ensures read.Err?
  {
    var repo := PopulatedRepository(payment, now);
    var _ := repo.FlushDB(None);
    assert Round(0.0) == 0;
    defaultSummary := repo.GetSummaryByDateRange(DefaultApi, from, to, None);
    fallbackSummary := repo.GetSummaryByDateRange(FallbackApi, from, to, None);
    read := repo.ReadFromStream("worker-1", None);
  }
}
