/**
  The state store of the PVP service: record keys, the in-memory store and the
  store that keeps everything in one Raft value
  (HTTPServer/WebApps/GomokuServer/include/GameStateStore.h,
  HTTPServer/WebApps/GomokuServer/src/RaftGameStateStore.cpp).
 */
module PvpStore {
  import opened Common
  import opened JsonValue

  // ---------------------------------------------------------------------- keys

  /** std::to_string */
  function ToString(n: int): string { if n < 0 then "-" + Digits(-n) else Digits(n) }

  function RoomKey(id: int): string { "gomoku:room:" + ToString(id) }

  const ActiveKey := "gomoku:active-room-ids"

  const NextKey := "gomoku:next-room-id"

  function Value(s: string): int {
    if s == [] then 0 else 10 * Value(s[..|s| - 1]) + (s[|s| - 1] as int - '0' as int)
  }

  lemma {:induction false} DigitsValue(n: nat)
    ensures |Digits(n)| > 0 && '0' <= Digits(n)[0] <= '9' && Value(Digits(n)) == n
  {
    if n >= 10 {
      DigitsValue(n / 10);
      assert Digits(n)[..|Digits(n)| - 1] == Digits(n / 10);
    }
  }

  lemma ToStringInjective(a: int, b: int)
    requires ToString(a) == ToString(b)
    ensures a == b
  {
    DigitsValue(if a < 0 then -a else a);
    DigitsValue(if b < 0 then -b else b);
    if a < 0 && b < 0 { assert Digits(-a) == ToString(a)[1..] == Digits(-b); }
  }

  /** Records of different rooms, the active list and the next id never share a key. */
  lemma KeysDistinct(a: int, b: int)
    ensures RoomKey(a) == RoomKey(b) ==> a == b
    ensures RoomKey(a) != ActiveKey && RoomKey(a) != NextKey && ActiveKey != NextKey
  {
    if RoomKey(a) == RoomKey(b) {
      assert RoomKey(a)[12..] == ToString(a) && RoomKey(b)[12..] == ToString(b);
      ToStringInjective(a, b);
    }
    assert RoomKey(a)[7] == 'r' && ActiveKey[7] == 'a' && NextKey[7] == 'n';
  }

  // ------------------------------------------------------------------ map store

  datatype LoadResult = Loaded(value: Json) | NotFound | LoadUnavailable

  /** A write lands and says so, fails and leaves nothing, or lands although it answers unavailable. */
  datatype Write = Lands | Fails | LandsUnseen

  type Values = map<string, Json>

  type Records = seq<(string, Json)>

  function Load(m: Values, key: string, down: bool): LoadResult {
    if down then LoadUnavailable else if key in m then Loaded(m[key]) else NotFound
  }

  function PutAll(m: Values, records: Records): Values {
    if records == [] then m
    else PutAll(m, records[..|records| - 1])[records[|records| - 1].0 := records[|records| - 1].1]
  }

  function Commit(m: Values, records: Records, w: Write): Values { if w == Fails then m else PutAll(m, records) }

  class MemoryGameStateStore {
    var values: Values
    var failNext: bool
    var writesLeft: Option<nat>

    constructor ()
      ensures values == map[] && !failNext && writesLeft == None
    {
      values, failNext, writesLeft := map[], false, None;
    }

    method LoadKey(key: string) returns (r: LoadResult)
      ensures r == Load(values, key, false)
    {
      if key !in values { return NotFound; }
      return Loaded(values[key]);
    }

    /** All records are written, or none. */
    method Replace(records: Records) returns (ok: bool)
      modifies this
      ensures ok <==> !old(failNext) && (old(writesLeft) == None || |records| <= old(writesLeft).value)
      ensures values == Commit(old(values), records, if ok then Lands else Fails)
      ensures !failNext
      ensures writesLeft == if ok && old(writesLeft).Some? then Some(old(writesLeft).value - |records|) else None
    {
      if failNext || (writesLeft.Some? && writesLeft.value < |records|) {
        failNext, writesLeft := false, None;
        return false;
      }
      if writesLeft.Some? { writesLeft := Some(writesLeft.value - |records|); }
      for i := 0 to |records|
        invariant values == PutAll(old(values), records[..i])
        invariant failNext == old(failNext)
        invariant writesLeft == if old(writesLeft).Some? && |records| <= old(writesLeft).value then Some(old(writesLeft).value - |records|) else None
      {
        values := values[records[i].0 := records[i].1];
        assert records[..i + 1][..i] == records[..i];
      }
      assert records[..|records|] == records;
      return true;
    }
  }

  // ------------------------------------------------------------- envelope store

  /** What the cluster holds under a key: nothing, the text of a document, or text that does not parse. */
  datatype Text = Absent | Dump(doc: Json) | Broken

  const EnvelopeKey := "gomoku:state"

  /** The records an envelope stands for; none when it is absent. */
  function Contents(t: Text): Option<Values> {
    match t
    case Absent => Some(map[])
    case Dump(Obj(fields)) => Some(fields)
    case _ => None
  }

  /** RaftGameStateStore over one value of the replicated store; client calls may
      time out, and a put that times out may have landed. */
  class RaftGameStateStore {
    var cluster: map<string, Text>

    constructor ()
      ensures cluster == map[]
    {
      cluster := map[];
    }

    ghost function Envelope(): Text
      reads this
    {
      if EnvelopeKey in cluster then cluster[EnvelopeKey] else Absent
    }

    method LoadKey(key: string, down: bool) returns (r: LoadResult)
      ensures Contents(Envelope()).Some? ==> r == Load(Contents(Envelope()).value, key, down)
      ensures Contents(Envelope()).None? ==> r == LoadUnavailable
    {
      if down { return LoadUnavailable; }
      if EnvelopeKey !in cluster || cluster[EnvelopeKey].Absent? { return NotFound; }
      match cluster[EnvelopeKey] {
        case Dump(Obj(fields)) =>
          if key !in fields { return NotFound; }
          return Loaded(fields[key]);
        case _ => return LoadUnavailable;
      }
    }

    /** One read and one write of the envelope make an atomic replace. */
    method Replace(records: Records, down: bool, put: Write) returns (ok: bool)
      modifies this
      ensures ok <==> !down && put == Lands && Contents(old(Envelope())).Some?
      ensures Contents(old(Envelope())).Some? ==>
        Contents(Envelope()) == Some(Commit(Contents(old(Envelope())).value, records, if down then Fails else put))
      ensures Contents(old(Envelope())).None? ==> Envelope() == old(Envelope())
      ensures forall k | k != EnvelopeKey :: k in cluster <==> k in old(cluster)
      ensures forall k | k in cluster && k != EnvelopeKey :: cluster[k] == old(cluster)[k]
    {
      var envelope: Values := map[];
      if down { return false; }
      if EnvelopeKey in cluster && !cluster[EnvelopeKey].Absent? {
        match cluster[EnvelopeKey] {
          case Dump(Obj(fields)) => envelope := fields;
          case _ => return false;
        }
      }
      ghost var before := envelope;
      for i := 0 to |records|
        invariant envelope == PutAll(before, records[..i])
      {
        envelope := envelope[records[i].0 := records[i].1];
        assert records[..i + 1][..i] == records[..i];
      }
      assert records[..|records|] == records;
      if put != Fails { cluster := cluster[EnvelopeKey := Dump(Obj(envelope))]; }
      return put == Lands;
    }
  }
}
