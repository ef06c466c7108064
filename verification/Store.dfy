/**
 The in-flight store of a client (section 4.1 of the MQTT V3.1 specification):
 QoS 1 messages in both directions under the keys "i.<id>" and "o.<id>".
 */
module Store {
  import opened Runs

  type Mid = n: nat | n < 65536

  datatype Message =
    | Publish(mid: Mid, qos: nat, topic: string, payload: string)
    | PubAck(ackId: Mid, ackQos: nat)
    | ConnAck
    | SubAck
    | UnsubAck
    | PingResp
    | Disconnect

  const QOS_AT_LEAST_ONCE: nat := 1

  // ----- the key codec -----

  function Digit(n: nat): char
    requires n < 10
  {
    ('0' as int + n) as char
  }

  /** `%d` of a natural number. */
  function Itoa(n: nat): string {
    if n < 10 then [Digit(n)] else Itoa(n / 10) + [Digit(n % 10)]
  }

  predicate AllDigits(s: string) {
    forall i :: 0 <= i < |s| ==> '0' <= s[i] <= '9'
  }

  function DigitsValue(s: string): nat
    requires AllDigits(s)
  {
    if s == "" then 0 else 10 * DigitsValue(s[..|s| - 1]) + (s[|s| - 1] as int - '0' as int)
  }

  function Clamp(n: int): int {
    if n > 0x7fff_ffff_ffff_ffff then 0x7fff_ffff_ffff_ffff
    else if n < -0x8000_0000_0000_0000 then -0x8000_0000_0000_0000 else n
  }

  /** `strconv.Atoi` with the error ignored: 0 on bad syntax, the nearest int64 out of range. */
  function Atoi(s: string): int {
    var signed := s != "" && (s[0] == '+' || s[0] == '-');
    var digits := if signed then s[1..] else s;
    if digits == "" || !AllDigits(digits) then 0
    else if signed && s[0] == '-' then Clamp(0 - DigitsValue(digits)) else Clamp(DigitsValue(digits))
  }

  const IBOUND_PREFIX := "i."
  const OBOUND_PREFIX := "o."

  function InboundKey(mid: Mid): string {
    IBOUND_PREFIX + Itoa(mid)
  }

  function OutboundKey(mid: Mid): string {
    OBOUND_PREFIX + Itoa(mid)
  }

  /** The conversion to uint16 keeps the low sixteen bits. */
  function KeyToMid(key: string): Mid
    requires |key| >= 2
  {
    Atoi(key[2..]) % 65536
  }

  lemma {:induction false} ItoaIsDecimal(n: nat)
    ensures Itoa(n) != "" && AllDigits(Itoa(n)) && DigitsValue(Itoa(n)) == n
    ensures Itoa(n)[0] == '0' ==> n == 0 && Itoa(n) == "0"
  {
    if n >= 10 {
      ItoaIsDecimal(n / 10);
      assert Itoa(n)[..|Itoa(n)| - 1] == Itoa(n / 10);
    } else {
      assert Itoa(n)[..0] == "";
    }
  }

  /** Parsing undoes printing for every number that fits an int64. */
  lemma AtoiOfItoa(n: nat)
    requires n <= 0x7fff_ffff_ffff_ffff
    ensures Atoi(Itoa(n)) == n
  {
    ItoaIsDecimal(n);
    assert '0' <= Itoa(n)[0] <= '9';
  }

  /** A sign may come first, and anything that is not one sign and digits counts as 0. */
  lemma AtoiOfSigned(digits: string)
    requires digits != "" && AllDigits(digits)
    ensures Atoi(digits) == Atoi("+" + digits) == Clamp(DigitsValue(digits))
    ensures Atoi("-" + digits) == Clamp(0 - DigitsValue(digits))
    ensures Atoi("") == Atoi("+") == Atoi("-") == 0
  {
    assert ("+" + digits)[1..] == digits && ("-" + digits)[1..] == digits;
    assert '0' <= digits[0] <= '9';
  }

  lemma AtoiOfOther(s: string)
    requires var tail := if s != "" && (s[0] == '+' || s[0] == '-') then s[1..] else s; !AllDigits(tail)
    ensures Atoi(s) == 0
  {
  }

  lemma KeyTail(prefix: string, tail: string)
    requires |prefix| == 2
    ensures (prefix + tail)[2..] == tail && (prefix + tail)[0] == prefix[0]
  {
  }

  /** The id is recovered from either key, and the first character tells the direction. */
  lemma KeyCodec(mid: Mid)
    ensures KeyToMid(InboundKey(mid)) == mid && KeyToMid(OutboundKey(mid)) == mid
    ensures InboundKey(mid)[0] == 'i' && OutboundKey(mid)[0] == 'o'
    ensures InboundKey(mid)[1] == OutboundKey(mid)[1] == '.'
  {
    AtoiOfItoa(mid);
    KeyTail(IBOUND_PREFIX, Itoa(mid));
    KeyTail(OBOUND_PREFIX, Itoa(mid));
  }

  lemma KeysAreDistinct(m: Mid, n: Mid)
    ensures InboundKey(m) == InboundKey(n) <==> m == n
    ensures OutboundKey(m) == OutboundKey(n) <==> m == n
    ensures InboundKey(m) != OutboundKey(n)
  {
    KeyCodec(m);
    KeyCodec(n);
  }

  // ----- the memory store -----

  class MemoryStore {
    var messages: map<string, Message>
    var isOpen: bool

    constructor ()
      ensures messages == map[] && !isOpen
    {
      messages, isOpen := map[], false;
    }

    method Open()
      modifies `isOpen
      ensures isOpen
    {
      isOpen := true;
    }

    method Put(key: string, m: Message)
      modifies `messages
      ensures messages == old(messages)[key := m]
    {
      messages := messages[key := m];
    }

    method Get(key: string) returns (r: Option<Message>)
      ensures r.Some? <==> key in messages
      ensures r.Some? ==> r.value == messages[key]
    {
      r := if key in messages then Some(messages[key]) else None;
    }

    /** Every key once, in no fixed order. */
    method All() returns (keys: seq<string>)
      ensures forall k :: k in keys <==> k in messages
      ensures forall i, j :: 0 <= i < j < |keys| ==> keys[i] != keys[j]
    {
      keys := [];
      var todo := messages.Keys;
      while todo != {}
        invariant todo <= messages.Keys
        invariant forall k :: k in keys <==> k in messages && k !in todo
        invariant forall i, j :: 0 <= i < j < |keys| ==> keys[i] != keys[j]
      {
        var k :| k in todo;
        keys := keys + [k];
        todo := todo - {k};
      }
    }

    method Del(key: string)
      modifies `messages
      ensures messages == old(messages) - {key}
    {
      messages := messages - {key};
    }

    method Close()
      modifies `isOpen
      ensures !isOpen
    {
      isOpen := false;
    }

    method Reset()
      modifies `messages
      ensures messages == map[]
    {
      messages := map[];
    }
  }

  /** The stores of all clients; a client id keeps its store across connections. */
  class ClientStores {
    var stores: map<string, MemoryStore>

    /** No two ids share a store. */
    ghost predicate Valid()
      reads this
    {
      forall a, b :: a in stores && b in stores && a != b ==> stores[a] != stores[b]
    }

    constructor ()
      ensures Valid() && stores == map[]
    {
      stores := map[];
    }

    method GetClientStore(id: string) returns (s: MemoryStore)
      requires Valid()
      modifies this
      ensures Valid() && id in stores && stores[id] == s
      ensures id in old(stores) ==> stores == old(stores)
      ensures id !in old(stores) ==> fresh(s) && s.messages == map[] && stores == old(stores)[id := s]
    {
      if id in stores {
        return stores[id];
      }
      s := new MemoryStore();
      stores := stores[id := s];
    }

    method DelClientStore(id: string)
      requires Valid()
      modifies this
      ensures Valid() && stores == old(stores) - {id}
    {
      stores := stores - {id};
    }
  }

  // ----- what is persisted -----

  type Contents = map<string, Message>

  function PersistIn(s: Contents, m: Message): Contents {
    match m
    case Publish(mid, qos, _, _) => if qos == QOS_AT_LEAST_ONCE then s[InboundKey(mid) := m] else s
    case PubAck(id, _) => s - {OutboundKey(id)}
    case _ => s
  }

  function PersistOut(s: Contents, m: Message): Contents {
    match m
    case Publish(mid, qos, _, _) => if qos == QOS_AT_LEAST_ONCE then s[OutboundKey(mid) := m] else s
    case PubAck(id, _) => s - {InboundKey(id)}
    case _ => s
  }

  method PersistOutbound(s: MemoryStore, m: Message)
    modifies s
    ensures s.messages == PersistOut(old(s.messages), m) && s.isOpen == old(s.isOpen)
  {
    match m
    case Publish(mid, qos, _, _) =>
      if qos == QOS_AT_LEAST_ONCE {
        s.Put(OutboundKey(mid), m);
      }
    case PubAck(id, _) => s.Del(InboundKey(id));
    case _ =>
  }

  method PersistInbound(s: MemoryStore, m: Message)
    modifies s
    ensures s.messages == PersistIn(old(s.messages), m) && s.isOpen == old(s.isOpen)
  {
    match m
    case Publish(mid, qos, _, _) =>
      if qos == QOS_AT_LEAST_ONCE {
        s.Put(InboundKey(mid), m);
      }
    case PubAck(id, _) => s.Del(OutboundKey(id));
    case _ =>
  }

  // ----- what a history of calls leaves in the store -----

  datatype Call = In(m: Message) | Out(m: Message)

  function Persist(s: Contents, call: Call): Contents {
    match call
    case In(m) => PersistIn(s, m)
    case Out(m) => PersistOut(s, m)
  }

  function PersistAll(calls: seq<Call>): Contents {
    if calls == [] then map[] else Persist(PersistAll(calls[..|calls| - 1]), calls[|calls| - 1])
  }

  /** The two halves of the store. */
  datatype Half = Inbound | Outbound

  function Key(h: Half, mid: Mid): string {
    if h == Inbound then InboundKey(mid) else OutboundKey(mid)
  }

  /** A QoS 1 PUBLISH arriving (or leaving) opens an exchange in its half of the store... */
  predicate Opens(call: Call, h: Half, mid: Mid) {
    && (if h == Inbound then call.In? else call.Out?)
    && call.m.Publish? && call.m.qos == 1 && call.m.mid == mid
  }

  /** ... and the PUBACK going the other way closes it. */
  predicate Closes(call: Call, h: Half, mid: Mid) {
    && (if h == Inbound then call.Out? else call.In?)
    && call.m.PubAck? && call.m.ackId == mid
  }

  function LastOpening(calls: seq<Call>, h: Half, mid: Mid): (i: int)
    ensures -1 <= i < |calls|
    ensures i >= 0 ==> Opens(calls[i], h, mid)
    ensures forall j :: i < j < |calls| ==> !Opens(calls[j], h, mid)
  {
    if calls == [] then -1
    else if Opens(calls[|calls| - 1], h, mid) then |calls| - 1
    else LastOpening(calls[..|calls| - 1], h, mid)
  }

  function LastClosing(calls: seq<Call>, h: Half, mid: Mid): (i: int)
    ensures -1 <= i < |calls|
    ensures i >= 0 ==> Closes(calls[i], h, mid)
    ensures forall j :: i < j < |calls| ==> !Closes(calls[j], h, mid)
  {
    if calls == [] then -1
    else if Closes(calls[|calls| - 1], h, mid) then |calls| - 1
    else LastClosing(calls[..|calls| - 1], h, mid)
  }

  /** One call touches one key: it opens or closes that exchange and no other. */
  lemma PersistTouches(s: Contents, call: Call, h: Half, mid: Mid)
    ensures var t, key := Persist(s, call), Key(h, mid);
            if Opens(call, h, mid) then key in t && t[key] == call.m
            else if Closes(call, h, mid) then key !in t
            else (key in t <==> key in s) && (key in s ==> t[key] == s[key])
  {
    match call.m
    case Publish(n, _, _, _) => KeysAreDistinct(n, mid); KeysAreDistinct(mid, n);
    case PubAck(n, _) => KeysAreDistinct(n, mid); KeysAreDistinct(mid, n);
    case _ =>
  }

  /**
   After any history, an exchange is stored exactly when it was last opened later than it
   was last closed, and what is stored is the message that opened it last.
   */
  lemma {:induction false} StoreIsOpenExchanges(calls: seq<Call>, h: Half, mid: Mid)
    ensures var s, key, i := PersistAll(calls), Key(h, mid), LastOpening(calls, h, mid);
            && (key in s <==> i > LastClosing(calls, h, mid))
            && (key in s ==> s[key] == calls[i].m)
  {
    if calls != [] {
      var init := calls[..|calls| - 1];
      StoreIsOpenExchanges(init, h, mid);
      PersistTouches(PersistAll(init), calls[|calls| - 1], h, mid);
    }
  }

  /** A stored entry is a QoS 1 PUBLISH under one of the two keys of its own id. */
  ghost predicate EntryOk(key: string, m: Message) {
    m.Publish? && m.qos == 1 && (key == InboundKey(m.mid) || key == OutboundKey(m.mid))
  }

  ghost predicate WellKept(s: Contents) {
    forall key :: key in s ==> EntryOk(key, s[key])
  }

  lemma PersistKeeps(s: Contents, call: Call)
    requires WellKept(s)
    ensures WellKept(Persist(s, call))
  {
  }

  lemma {:induction false} StoreIsWellKept(calls: seq<Call>)
    ensures WellKept(PersistAll(calls))
  {
    if calls != [] {
      StoreIsWellKept(calls[..|calls| - 1]);
      PersistKeeps(PersistAll(calls[..|calls| - 1]), calls[|calls| - 1]);
    }
  }
}
