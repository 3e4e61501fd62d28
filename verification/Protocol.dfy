/**
 * Message framing of `relay_sdk/protocol.py` and the paged query of
 * `SubdocSubscription`. A string is the byte sequence of its UTF-8 form;
 * a CBOR payload is kept as raw bytes.
 */
module Protocol {
  import opened Common
  import opened Varuint

  type Bytes = seq<byte>

  const MSG_EVENT: nat := 4
  const MSG_EVENT_SUBSCRIBE: nat := 5
  const MSG_EVENT_UNSUBSCRIBE: nat := 6
  const MSG_QUERY_SUBDOCS: nat := 7
  const MSG_SUBDOCS: nat := 8
  const MAX_QUERY := 100

  datatype Message =
    | Cbor(tag: nat, cbor: Bytes)
    | Strings(tag: nat, values: seq<Bytes>)
    | Payload(tag: nat, payload: Bytes)

  predicate IsCborTag(tag: nat) { tag == MSG_SUBDOCS || tag == MSG_EVENT }

  predicate IsStringsTag(tag: nat) {
    tag == MSG_EVENT_SUBSCRIBE || tag == MSG_EVENT_UNSUBSCRIBE || tag == MSG_QUERY_SUBDOCS
  }

  function EncodeBytes(value: Bytes): Bytes { Leb(|value|) + value }

  function DecodeBytes(data: Bytes, offset: nat): Result<(Bytes, nat)> {
    var r := Dec(data, offset, 0);
    if r.Err? || r.value.1 + r.value.0 > |data| then Err
    else Ok((data[r.value.1..r.value.1 + r.value.0], r.value.1 + r.value.0))
  }

  function EncodeAll(values: seq<Bytes>): Bytes {
    if values == [] then [] else EncodeAll(values[..|values| - 1]) + EncodeBytes(values[|values| - 1])
  }

  function EncodeStrings(tag: nat, values: seq<Bytes>): Bytes { Leb(tag) + Leb(|values|) + EncodeAll(values) }

  method EncodeStringListMessage(tag: nat, values: seq<Bytes>) returns (out: Bytes)
    ensures out == EncodeStrings(tag, values)
  {
    out := Leb(tag) + Leb(|values|);
    for i := 0 to |values|
      invariant out == Leb(tag) + Leb(|values|) + EncodeAll(values[..i])
    {
      assert values[..i + 1][..i] == values[..i];
      out := out + EncodeBytes(values[i]);
    }
    assert values[..|values|] == values;
  }

  function DecodeValues(frame: Bytes, offset: nat, count: nat): Result<(seq<Bytes>, nat)> {
    if count == 0 then Ok(([], offset))
    else
      var front := DecodeValues(frame, offset, count - 1);
      if front.Err? then Err
      else
        var last := DecodeBytes(frame, front.value.1);
        if last.Err? then Err else Ok((front.value.0 + [last.value.0], last.value.1))
  }

  lemma {:induction false} DecodeValuesFails(frame: Bytes, offset: nat, failed: nat, count: nat)
    requires failed <= count && DecodeValues(frame, offset, failed).Err?
    ensures DecodeValues(frame, offset, count).Err?
  {
    if failed < count {
      DecodeValuesFails(frame, offset, failed, count - 1);
    }
  }

  method DecodeStringList(frame: Bytes, start: nat) returns (r: Result<(seq<Bytes>, nat)>)
    ensures r == DecodeStringsAt(frame, start)
  {
    var head := DecodeVaruint(frame, start);
    if head.Err? {
      return Err;
    }
    var count, offset := head.value.0, head.value.1;
    var values := [];
    for i := 0 to count
      invariant DecodeValues(frame, head.value.1, i) == Ok((values, offset))
    {
      var next := DecodeBytes(frame, offset);
      if next.Err? {
        DecodeValuesFails(frame, head.value.1, i + 1, count);
        return Err;
      }
      values, offset := values + [next.value.0], next.value.1;
    }
    return Ok((values, offset));
  }

  function DecodeStringsAt(frame: Bytes, offset: nat): Result<(seq<Bytes>, nat)> {
    var r := Dec(frame, offset, 0);
    if r.Err? then Err else DecodeValues(frame, r.value.1, r.value.0)
  }

  function DecodeMessage(frame: Bytes): Result<Message> {
    match Dec(frame, 0, 0)
    case Err => Err
    case Ok(r) =>
      if IsCborTag(r.0) then
        match DecodeBytes(frame, r.1)
        case Err => Err
        case Ok(b) => if b.1 != |frame| then Err else Ok(Cbor(r.0, b.0))
      else if IsStringsTag(r.0) then
        match DecodeStringsAt(frame, r.1)
        case Err => Err
        case Ok(s) => if s.1 != |frame| then Err else Ok(Strings(r.0, s.0))
      else if r.1 > |frame| then Err
      else Ok(Payload(r.0, frame[r.1..]))
  }

  /** Counts and lengths stay below what a varuint can carry. */
  ghost predicate Sized(values: seq<Bytes>) { |values| < LIMIT && Short(values) }

  ghost predicate Short(values: seq<Bytes>) {
    values != [] ==> |values[|values| - 1]| < LIMIT && Short(values[..|values| - 1])
  }

  lemma {:induction false} ShortIff(values: seq<Bytes>)
    ensures Short(values) <==> forall v :: v in values ==> |v| < LIMIT
  {
    if values != [] {
      var front, last := values[..|values| - 1], values[|values| - 1];
      ShortIff(front);
      assert values == front + [last];
    }
  }

  /** `part` stands in `data` at `offset`. */
  ghost predicate StandsAt(data: Bytes, offset: nat, part: Bytes) {
    offset + |part| <= |data| && data[offset..offset + |part|] == part
  }

  lemma StandsSplit(data: Bytes, offset: nat, a: Bytes, b: Bytes)
    requires StandsAt(data, offset, a + b)
    ensures StandsAt(data, offset, a) && StandsAt(data, offset + |a|, b)
  {
    var both := data[offset..offset + |a + b|];
    assert data[offset..offset + |a|] == both[..|a|] == a;
    assert data[offset + |a|..offset + |a| + |b|] == both[|a|..] == b;
  }

  lemma VaruintHit(data: Bytes, offset: nat, v: nat, encoded: Bytes)
    requires encoded == Leb(v) && StandsAt(data, offset, encoded) && v < LIMIT
    ensures Dec(data, offset, 0) == Ok((v, offset + |encoded|))
  {
    LimitIsPow();
    assert data[offset..offset + |encoded|] == encoded;
    DecLeb(data, offset, 0, v);
  }

  lemma DecodeBytesHit(data: Bytes, offset: nat, value: Bytes, encoded: Bytes)
    requires |value| < LIMIT && encoded == EncodeBytes(value) && StandsAt(data, offset, encoded)
    ensures DecodeBytes(data, offset) == Ok((value, offset + |encoded|))
  {
    var count := Leb(|value|);
    StandsSplit(data, offset, count, value);
    VaruintHit(data, offset, |value|, count);
    assert data[offset + |count|..offset + |encoded|] == value;
  }

  lemma AddLast(data: Bytes, offset: nat, front: seq<Bytes>, mid: nat, last: Bytes, end: nat)
    requires DecodeValues(data, offset, |front|) == Ok((front, mid)) && DecodeBytes(data, mid) == Ok((last, end))
    ensures DecodeValues(data, offset, |front| + 1) == Ok((front + [last], end))
  {
  }

  lemma LastValueHit(data: Bytes, offset: nat, front: seq<Bytes>, at: nat, last: Bytes, one: Bytes)
    requires |last| < LIMIT && one == EncodeBytes(last) && StandsAt(data, at, one)
    requires DecodeValues(data, offset, |front|) == Ok((front, at))
    ensures DecodeValues(data, offset, |front| + 1) == Ok((front + [last], at + |one|))
  {
    DecodeBytesHit(data, at, last, one);
    AddLast(data, offset, front, at, last, at + |one|);
  }

  lemma StandsLast(data: Bytes, offset: nat, values: seq<Bytes>, all: Bytes, one: Bytes)
    requires values != [] && StandsAt(data, offset, EncodeAll(values))
    requires all == EncodeAll(values[..|values| - 1]) && one == EncodeBytes(values[|values| - 1])
    ensures StandsAt(data, offset, all) && StandsAt(data, offset + |all|, one) && |EncodeAll(values)| == |all| + |one|
  {
    StandsSplit(data, offset, all, one);
  }

  lemma {:induction false} DecodeValuesHit(data: Bytes, offset: nat, values: seq<Bytes>, encoded: Bytes)
    requires Short(values) && encoded == EncodeAll(values) && StandsAt(data, offset, encoded)
    ensures DecodeValues(data, offset, |values|) == Ok((values, offset + |encoded|))
  {
    if values != [] {
      var front, last := values[..|values| - 1], values[|values| - 1];
      var all, one := EncodeAll(front), EncodeBytes(last);
      StandsLast(data, offset, values, all, one);
      DecodeValuesHit(data, offset, front, all);
      LastValueHit(data, offset, front, offset + |all|, last, one);
      assert front + [last] == values;
    }
  }

  lemma StandsInRow(a: Bytes, b: Bytes, c: Bytes)
    ensures StandsAt(a + b + c, 0, a) && StandsAt(a + b + c, |a|, b) && StandsAt(a + b + c, |a| + |b|, c)
  {
    assert (a + b + c)[..|a|] == a;
  }

  lemma CountThenValues(data: Bytes, at: nat, n: nat, first: nat, values: seq<Bytes>, end: nat)
    requires Dec(data, at, 0) == Ok((n, first)) && DecodeValues(data, first, n) == Ok((values, end))
    ensures DecodeStringsAt(data, at) == Ok((values, end))
  {
  }

  lemma StringsHit(data: Bytes, at: nat, first: nat, values: seq<Bytes>, all: Bytes)
    requires Short(values) && Dec(data, at, 0) == Ok((|values|, first))
    requires all == EncodeAll(values) && StandsAt(data, first, all)
    ensures DecodeStringsAt(data, at) == Ok((values, first + |all|))
  {
    DecodeValuesHit(data, first, values, all);
    CountThenValues(data, at, |values|, first, values, first + |all|);
  }

  lemma MessageOf(frame: Bytes, tag: nat, at: nat, values: seq<Bytes>)
    requires IsStringsTag(tag) && Dec(frame, 0, 0) == Ok((tag, at))
             && DecodeStringsAt(frame, at) == Ok((values, |frame|))
    ensures DecodeMessage(frame) == Ok(Strings(tag, values))
  {
  }

  /** A string-list frame decodes back to its tag and values. */
  lemma FrameRoundTrip(tag: nat, values: seq<Bytes>)
    requires IsStringsTag(tag) && Sized(values)
    ensures DecodeMessage(EncodeStrings(tag, values)) == Ok(Strings(tag, values))
  {
    FrameInRow(tag, Leb(tag), Leb(|values|), values, EncodeAll(values));
  }

  lemma FrameInRow(tag: nat, t: Bytes, n: Bytes, values: seq<Bytes>, all: Bytes)
    requires IsStringsTag(tag) && Sized(values) && t == Leb(tag) && n == Leb(|values|) && all == EncodeAll(values)
    ensures DecodeMessage(t + n + all) == Ok(Strings(tag, values))
  {
    StandsInRow(t, n, all);
    FrameDecodes(t + n + all, tag, t, n, values, all);
  }

  lemma FrameDecodes(frame: Bytes, tag: nat, t: Bytes, n: Bytes, values: seq<Bytes>, all: Bytes)
    requires IsStringsTag(tag) && Sized(values) && t == Leb(tag) && n == Leb(|values|) && all == EncodeAll(values)
    requires StandsAt(frame, 0, t) && StandsAt(frame, |t|, n) && StandsAt(frame, |t| + |n|, all)
    requires |frame| == |t| + |n| + |all|
    ensures DecodeMessage(frame) == Ok(Strings(tag, values))
  {
    VaruintHit(frame, 0, tag, t);
    VaruintHit(frame, |t|, |values|, n);
    StringsHit(frame, |t|, |t| + |n|, values, all);
    MessageOf(frame, tag, |t|, values);
  }

  lemma DecodeBytesPrefix(data: Bytes, cut: nat, offset: nat)
    requires cut <= |data| && DecodeBytes(data[..cut], offset).Ok?
    ensures DecodeBytes(data, offset) == DecodeBytes(data[..cut], offset)
  {
    DecPrefix(data, cut, offset, 0);
    var (len, at) := Dec(data[..cut], offset, 0).value;
    assert data[..cut][at..at + len] == data[at..at + len];
  }

  lemma {:induction false} DecodeValuesPrefix(data: Bytes, cut: nat, offset: nat, count: nat)
    requires cut <= |data| && DecodeValues(data[..cut], offset, count).Ok?
    ensures DecodeValues(data, offset, count) == DecodeValues(data[..cut], offset, count)
  {
    if count > 0 {
      DecodeValuesPrefix(data, cut, offset, count - 1);
      DecodeBytesPrefix(data, cut, DecodeValues(data, offset, count - 1).value.1);
    }
  }

  /** Frames with a known structure are prefix-free: two distinct ones are never a prefix of one another. */
  lemma PrefixFree(frame: Bytes, cut: nat)
    requires cut < |frame| && DecodeMessage(frame).Ok? && !DecodeMessage(frame).value.Payload?
    ensures DecodeMessage(frame[..cut]).Err?
  {
    if DecodeMessage(frame[..cut]).Ok? {
      DecPrefix(frame, cut, 0, 0);
      var (tag, at) := Dec(frame, 0, 0).value;
      if IsCborTag(tag) {
        DecodeBytesPrefix(frame, cut, at);
      } else {
        DecPrefix(frame, cut, at, 0);
        var (count, first) := Dec(frame, at, 0).value;
        DecodeValuesPrefix(frame, cut, first, count);
      }
    }
  }

  /** No proper prefix of a string-list frame decodes, and any trailing byte is rejected. */
  lemma FrameIsExact(tag: nat, values: seq<Bytes>, cut: nat, trailing: Bytes)
    requires IsStringsTag(tag) && Sized(values)
    requires cut < |EncodeStrings(tag, values)| && trailing != []
    ensures DecodeMessage(EncodeStrings(tag, values)[..cut]).Err?
    ensures DecodeMessage(EncodeStrings(tag, values) + trailing).Err?
  {
    var frame := EncodeStrings(tag, values);
    var longer := frame + trailing;
    FrameRoundTrip(tag, values);
    PrefixFree(frame, cut);
    if DecodeMessage(longer).Ok? {
      assert longer[..|frame|] == frame;
      DecPrefix(longer, |frame|, 0, 0);
      PrefixFree(longer, |frame|);
    }
  }

  // ----- the three kinds of frame, by number -----

  lemma TagIsRead(tag: nat, rest: Bytes)
    requires tag < LIMIT
    ensures Dec(Leb(tag) + rest, 0, 0) == Ok((tag, |Leb(tag)|))
  {
    assert (Leb(tag) + rest)[0..|Leb(tag)|] == Leb(tag);
    VaruintHit(Leb(tag) + rest, 0, tag, Leb(tag));
  }

  lemma BytesAreRead(before: Bytes, value: Bytes)
    requires |value| < LIMIT
    ensures DecodeBytes(before + EncodeBytes(value), |before|) == Ok((value, |before + EncodeBytes(value)|))
  {
    var one := EncodeBytes(value);
    assert (before + one)[|before|..|before| + |one|] == one;
    DecodeBytesHit(before + one, |before|, value, one);
  }

  lemma CborMessage(frame: Bytes, tag: nat, at: nat, cbor: Bytes)
    requires tag == 4 || tag == 8
    requires Dec(frame, 0, 0) == Ok((tag, at)) && DecodeBytes(frame, at) == Ok((cbor, |frame|))
    ensures DecodeMessage(frame) == Ok(Cbor(tag, cbor))
  {
  }

  /** An event (4) or a subdocs message (8) decodes to its payload, without tag and length. */
  lemma CborRoundTrip(tag: nat, cbor: Bytes)
    requires (tag == 4 || tag == 8) && |cbor| < LIMIT
    ensures DecodeMessage(Leb(tag) + EncodeBytes(cbor)) == Ok(Cbor(tag, cbor))
  {
    TagIsRead(tag, EncodeBytes(cbor));
    BytesAreRead(Leb(tag), cbor);
    CborMessage(Leb(tag) + EncodeBytes(cbor), tag, |Leb(tag)|, cbor);
  }

  /** No proper prefix of such a frame decodes, and any trailing byte is rejected. */
  lemma CborIsExact(tag: nat, cbor: Bytes, cut: nat, trailing: Bytes)
    requires (tag == 4 || tag == 8) && |cbor| < LIMIT
    requires cut < |Leb(tag) + EncodeBytes(cbor)| && trailing != []
    ensures DecodeMessage((Leb(tag) + EncodeBytes(cbor))[..cut]).Err?
    ensures DecodeMessage(Leb(tag) + EncodeBytes(cbor) + trailing).Err?
  {
    var frame := Leb(tag) + EncodeBytes(cbor);
    CborRoundTrip(tag, cbor);
    PrefixFree(frame, cut);
    TrailingFails(frame, tag, cbor, trailing);
  }

  lemma TrailingFails(frame: Bytes, tag: nat, cbor: Bytes, trailing: Bytes)
    requires (tag == 4 || tag == 8) && DecodeMessage(frame) == Ok(Cbor(tag, cbor)) && trailing != []
    ensures DecodeMessage(frame + trailing).Err?
  {
    var longer := frame + trailing;
    if DecodeMessage(longer).Ok? {
      assert longer[..|frame|] == frame;
      DecPrefix(longer, |frame|, 0, 0);
      PrefixFree(longer, |frame|);
    }
  }

  /** Subscriptions (5), their ends (6) and queries (7) decode to their strings. */
  lemma StringsRoundTrip(tag: nat, values: seq<Bytes>)
    requires (tag == 5 || tag == 6 || tag == 7) && Sized(values)
    ensures DecodeMessage(EncodeStrings(tag, values)) == Ok(Strings(tag, values))
  {
    FrameRoundTrip(tag, values);
  }

  /** Any other tag leaves the rest of the frame as it is. */
  lemma PayloadRoundTrip(tag: nat, payload: Bytes)
    requires tag < LIMIT && !(4 <= tag <= 8)
    ensures DecodeMessage(Leb(tag) + payload) == Ok(Payload(tag, payload))
  {
    TagIsRead(tag, payload);
    assert (Leb(tag) + payload)[|Leb(tag)|..] == payload;
  }

  // ----- paged queries -----

  /** `list(dict.fromkeys(guid for guid in guids if guid))` */
  function FirstOccurrences(guids: seq<Bytes>): (u: seq<Bytes>) {
    if guids == [] then []
    else
      var front, last := FirstOccurrences(guids[..|guids| - 1]), guids[|guids| - 1];
      if last == [] || last in front then front else front + [last]
  }

  /** `i` is where `g` first occurs. */
  ghost predicate FirstAt(guids: seq<Bytes>, g: Bytes, i: nat) {
    i < |guids| && guids[i] == g && g !in guids[..i]
  }

  /** Exactly the non-empty guids, each once, in the order of their first occurrence. */
  lemma {:induction false} FirstOccurrencesSpec(guids: seq<Bytes>)
    ensures var u := FirstOccurrences(guids);
            && (forall g :: g in u <==> g in guids && g != [])
            && (forall i, j :: 0 <= i < j < |u| ==> u[i] != u[j])
            && (forall a, b, i, j :: 0 <= a < b < |u| && FirstAt(guids, u[a], i) && FirstAt(guids, u[b], j) ==> i < j)
  {
    if guids != [] {
      var front, last := guids[..|guids| - 1], guids[|guids| - 1];
      FirstOccurrencesSpec(front);
      assert guids == front + [last];
      var u, v := FirstOccurrences(guids), FirstOccurrences(front);
      forall a, b, i, j | 0 <= a < b < |u| && FirstAt(guids, u[a], i) && FirstAt(guids, u[b], j)
        ensures i < j
      {
        assert u[a] in v;
        FirstAtFront(front, last, u[a], i);
        if b < |v| {
          FirstAtFront(front, last, u[b], j);
        } else {
          assert j == |front|;
        }
      }
    }
  }

  lemma FirstAtFront(front: seq<Bytes>, last: Bytes, g: Bytes, i: nat)
    requires g in front && FirstAt(front + [last], g, i)
    ensures FirstAt(front, g, i)
  {
    var guids := front + [last];
    if i == |front| {
      assert guids[..i] == front;
    } else {
      assert guids[..i] == front[..i];
    }
  }

  function Min(a: nat, b: nat): nat { if a < b then a else b }

  /** The frames for the guids from `index` on, one per page. */
  function Pages(guids: seq<Bytes>, index: nat): seq<Bytes>
    decreases |guids| - index
  {
    if index >= |guids| then []
    else [EncodeStrings(MSG_QUERY_SUBDOCS, guids[index..Min(index + MAX_QUERY, |guids|)])]
         + Pages(guids, index + MAX_QUERY)
  }

  /** `encode_query_subdocs`, which rejects empty and oversized pages. */
  method EncodeQuerySubdocs(guids: seq<Bytes>) returns (r: Result<Bytes>)
    ensures r == if 1 <= |guids| <= MAX_QUERY then Ok(EncodeStrings(MSG_QUERY_SUBDOCS, guids)) else Err
  {
    if guids == [] || |guids| > MAX_QUERY {
      return Err;
    }
    var out := EncodeStringListMessage(MSG_QUERY_SUBDOCS, guids);
    return Ok(out);
  }

  class SubdocSubscription {
    var connected: bool
    var sent: seq<Bytes>

    constructor ()
      ensures !connected && sent == []
    {
      connected, sent := false, [];
    }

    /** Sends the de-duplicated guids in pages; fails only when there is no connection. */
    method Query(guids: seq<Bytes>) returns (ok: bool)
      modifies this`sent
      ensures ok == connected
      ensures sent == if connected then old(sent) + Pages(FirstOccurrences(guids), 0) else old(sent)
    {
      if !connected {
        return false;
      }
      var unique := [];
      for i := 0 to |guids|
        invariant unique == FirstOccurrences(guids[..i]) && sent == old(sent)
      {
        assert guids[..i + 1][..i] == guids[..i];
        if guids[i] != [] && guids[i] !in unique {
          unique := unique + [guids[i]];
        }
      }
      assert guids[..|guids|] == guids;
      var index: nat := 0;
      while index < |unique|
        invariant sent + Pages(unique, index) == old(sent) + Pages(unique, 0)
      {
        var frame := EncodeQuerySubdocs(unique[index..Min(index + MAX_QUERY, |unique|)]);
        sent := sent + [frame.value];
        index := index + MAX_QUERY;
      }
      return true;
    }
  }

  /** What the peer reads: the values of the query frames, one after another. */
  function ReadQueries(frames: seq<Bytes>): Result<seq<Bytes>> {
    if frames == [] then Ok([])
    else
      match DecodeMessage(frames[0])
      case Ok(Strings(tag, values)) =>
        if tag != MSG_QUERY_SUBDOCS || !(1 <= |values| <= MAX_QUERY) then Err
        else
          (match ReadQueries(frames[1..])
           case Err => Err
           case Ok(rest) => Ok(values + rest))
      case _ => Err
  }

  lemma PageReadsBack(page: seq<Bytes>, frames: seq<Bytes>)
    requires Short(page) && 1 <= |page| <= MAX_QUERY && frames != []
    requires frames[0] == EncodeStrings(MSG_QUERY_SUBDOCS, page)
    ensures ReadQueries(frames[1..]).Ok? ==> ReadQueries(frames) == Ok(page + ReadQueries(frames[1..]).value)
  {
    FrameRoundTrip(MSG_QUERY_SUBDOCS, page);
  }

  lemma PageIsShort(guids: seq<Bytes>, lo: nat, hi: nat)
    requires Short(guids) && lo <= hi <= |guids|
    ensures Short(guids[lo..hi])
  {
    ShortIff(guids);
    ShortIff(guids[lo..hi]);
  }

  /** One page and what follows it. */
  lemma PageThenRest(guids: seq<Bytes>, index: nat, end: nat)
    requires index < |guids| && Short(guids) && end == Min(index + MAX_QUERY, |guids|)
    requires ReadQueries(Pages(guids, index + MAX_QUERY)) == Ok(guids[end..])
    ensures ReadQueries(Pages(guids, index)) == Ok(guids[index..])
  {
    var (page, frames) := (guids[index..end], Pages(guids, index));
    assert frames[1..] == Pages(guids, index + MAX_QUERY);
    PageIsShort(guids, index, end);
    PageReadsBack(page, frames);
    assert guids[index..] == page + guids[end..];
  }

  /** Every sent frame is a query of 1 to 100 guids, and together they carry the de-duplicated list in order. */
  lemma {:induction false} PagesReadBack(guids: seq<Bytes>, index: nat)
    requires Short(guids)
    ensures ReadQueries(Pages(guids, index)) == Ok(guids[Min(index, |guids|)..])
    decreases |guids| - index
  {
    if index < |guids| {
      PagesReadBack(guids, index + MAX_QUERY);
      PageThenRest(guids, index, Min(index + MAX_QUERY, |guids|));
    } else {
      assert Pages(guids, index) == [] && guids[|guids|..] == [];
    }
  }

  /** Reading back the frames of a query gives the guids without empty and repeated ones, in order. */
  lemma QueryReadBack(guids: seq<Bytes>)
    requires Short(guids)
    ensures ReadQueries(Pages(FirstOccurrences(guids), 0)) == Ok(FirstOccurrences(guids))
  {
    FirstOccurrencesSpec(guids);
    ShortIff(guids);
    ShortIff(FirstOccurrences(guids));
    PagesReadBack(FirstOccurrences(guids), 0);
  }

  lemma {:induction false} PageCount(guids: seq<Bytes>, index: nat)
    requires index <= |guids|
    ensures |Pages(guids, index)| == (|guids| - index + 99) / 100
    decreases |guids| - index
  {
    if index + 100 <= |guids| {
      PageCount(guids, index + 100);
    }
  }

  lemma FirstPageIs(guids: seq<Bytes>, index: nat)
    requires index < |guids| && Short(guids)
    ensures Pages(guids, index) != []
    ensures DecodeMessage(Pages(guids, index)[0]) == Ok(Strings(7, guids[index..Min(index + 100, |guids|)]))
  {
    PageIsShort(guids, index, Min(index + 100, |guids|));
    FrameRoundTrip(7, guids[index..Min(index + 100, |guids|)]);
  }

  lemma PageOver(guids: seq<Bytes>, index: nat, k: nat)
    requires index < |guids| && k < |Pages(guids, index + 100)|
    ensures k + 1 < |Pages(guids, index)| && Pages(guids, index)[k + 1] == Pages(guids, index + 100)[k]
  {
  }

  lemma {:induction false} PageAt(guids: seq<Bytes>, index: nat, k: nat, at: nat)
    requires at == index + 100 * k && at < |guids|
    ensures k < |Pages(guids, index)| && Pages(guids, at) != []
    ensures Pages(guids, index)[k] == Pages(guids, at)[0]
    decreases k
  {
    if k > 0 {
      PageAt(guids, index + 100, k - 1, at);
      PageOver(guids, index, k - 1);
    }
  }

  /** Page `k` of a query holds the guids from 100 k on, a hundred of them or what is left. */
  lemma PagesAre(guids: seq<Bytes>, index: nat, k: nat)
    requires index + 100 * k < |guids| && Short(guids)
    ensures k < |Pages(guids, index)| == (|guids| - index + 99) / 100
    ensures DecodeMessage(Pages(guids, index)[k])
         == Ok(Strings(7, guids[index + 100 * k..Min(index + 100 * k + 100, |guids|)]))
  {
    PageCount(guids, index);
    PageAt(guids, index, k, index + 100 * k);
    FirstPageIs(guids, index + 100 * k);
  }
}
