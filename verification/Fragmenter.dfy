/**
 * Large terminal screens leave the relay as fragments and are put together again by the
 * browser. Text is a sequence of UTF-16 units; sizes are counted in UTF-8 bytes.
 */
module Fragmenter {

  type Code = u: nat | u < 0x1_0000

  type Text = seq<Code>

  const MAX_PART: nat := 131_072
  const MAX_FRAGMENTS: nat := 32
  const FRAME_LIMIT: nat := 500_000
  const SCREEN_LIMIT: nat := 2 * 1024 * 1024

  predicate High(u: Code) { 0xD800 <= u <= 0xDBFF }

  predicate Low(u: Code) { 0xDC00 <= u <= 0xDFFF }

  // ----- UTF-8 sizes (section 3 of RFC 3629) of UTF-16 text (section 2 of RFC 2781)

  /** Bytes of a unit that stands alone; a lone surrogate is written as the replacement character U+FFFD. */
  function Width(u: Code): nat {
    if u < 0x80 then 1 else if u < 0x800 then 2 else 3
  }

  /** The units of two and three bytes begin at U+0080 and U+0800, and no later unit is shorter. */
  lemma WidthIs(u: Code, v: Code)
    ensures Width(0x00) == Width(0x7F) == 1 && Width(0x80) == Width(0x7FF) == 2 && Width(0x800) == Width(0xFFFF) == 3
    ensures u <= v ==> Width(u) <= Width(v)
  {
  }

  /** The surrogates are the 1,024 units from U+D800 and the 1,024 after them, high ones first. */
  lemma SurrogatesAre(u: Code)
    ensures High(u) <==> u / 0x400 == 0x36
    ensures Low(u) <==> u / 0x400 == 0x37
  {
  }

  predicate PairAt(s: Text, k: nat) {
    k + 1 < |s| && High(s[k]) && Low(s[k + 1])
  }

  function Bytes(s: Text): nat {
    if s == [] then 0
    else if PairAt(s, 0) then 4 + Bytes(s[2..])
    else Width(s[0]) + Bytes(s[1..])
  }

  predicate SplitsPair(s: Text, k: nat) {
    0 < k && PairAt(s, k - 1)
  }

  /** Cutting a text keeps its size unless the cut is inside a surrogate pair, which costs two bytes more. */
  lemma {:induction false} BytesCut(s: Text, k: nat)
    requires k <= |s|
    ensures Bytes(s[..k]) + Bytes(s[k..]) == Bytes(s) + if SplitsPair(s, k) then 2 else 0
    decreases |s|
  {
    if k == 0 {
      assert s[..0] == [] && s[0..] == s;
    } else if k == |s| {
      assert s[..k] == s && s[k..] == [];
    } else if PairAt(s, 0) && k == 1 {
      assert s[..1][1..] == [] && s[1..][1..] == s[2..];
    } else {
      var n := if PairAt(s, 0) then 2 else 1;
      BytesCut(s[n..], k - n);
      assert s[..k][n..] == s[n..][..k - n] && s[n..][k - n..] == s[k..];
    }
  }

  lemma {:induction false} BytesBounded(s: Text)
    ensures |s| <= Bytes(s) <= 3 * |s|
  {
    if s != [] {
      BytesBounded(if PairAt(s, 0) then s[2..] else s[1..]);
    }
  }

  // ----- Fragments

  function Join(parts: seq<Text>): Text {
    if parts == [] then [] else Join(parts[..|parts| - 1]) + parts[|parts| - 1]
  }

  /** The size of the parts, each taken by itself. */
  function Total(parts: seq<Text>): nat {
    if parts == [] then 0 else Total(parts[..|parts| - 1]) + Bytes(parts[|parts| - 1])
  }

  /** No surrogate pair has its halves in these two. */
  predicate Seam(left: Text, right: Text) {
    left == [] || right == [] || !(High(left[|left| - 1]) && Low(right[0]))
  }

  /** Parts of the right sizes; the last one may be short only when nothing follows. */
  ghost predicate Shaped(parts: seq<Text>, more: bool) {
    && (forall i :: 0 <= i < |parts| ==> 0 < |parts[i]| <= MAX_PART)
    && (forall i :: 0 <= i < (if more then |parts| else |parts| - 1) ==> MAX_PART - 1 <= |parts[i]|)
    && (forall i :: 0 < i < |parts| ==> Seam(parts[i - 1], parts[i]))
  }

  ghost predicate Fragmentation(json: Text, parts: seq<Text>) {
    Join(parts) == json && Total(parts) == Bytes(json) && Shaped(parts, false)
  }

  lemma Appended(json: Text, parts: seq<Text>, start: nat, end: nat)
    requires start <= end <= |json| && !SplitsPair(json, start)
    requires Join(parts) == json[..start] && Total(parts) == Bytes(json[..start])
    ensures var next := parts + [json[start..end]]; Join(next) == json[..end] && Total(next) == Bytes(json[..end])
  {
    var text, part := json[..end], json[start..end];
    BytesCut(text, start);
    assert text[..start] == json[..start] && text[start..] == part && text == json[..start] + part;
    assert (parts + [part])[..|parts|] == parts;
  }

  lemma ShapedAppend(parts: seq<Text>, part: Text, more: bool)
    requires Shaped(parts, true) && 0 < |part| <= MAX_PART && (more ==> MAX_PART - 1 <= |part|)
    requires parts != [] ==> Seam(parts[|parts| - 1], part)
    ensures Shaped(parts + [part], more)
  {
  }

  ghost predicate Progress(json: Text, start: nat, parts: seq<Text>) {
    && start <= |json| && !SplitsPair(json, start)
    && Join(parts) == json[..start] && Total(parts) == Bytes(json[..start])
    && Shaped(parts, start < |json|)
    && (parts != [] ==> 0 < start && parts[|parts| - 1] != [] && Last(parts[|parts| - 1]) == json[start - 1])
  }

  function Last(s: Text): Code
    requires s != []
  {
    s[|s| - 1]
  }

  lemma Extends(json: Text, start: nat, end: nat, parts: seq<Text>)
    requires Progress(json, start, parts) && start < end <= |json| && end - start <= MAX_PART
    requires !SplitsPair(json, end) && (end < |json| ==> MAX_PART - 1 <= end - start)
    ensures Progress(json, end, parts + [json[start..end]])
  {
    var part := json[start..end];
    Appended(json, parts, start, end);
    ShapedAppend(parts, part, end < |json|);
    assert Last(part) == json[end - 1];
  }

  /** Cuts a text into parts of at most 131,072 units without cutting a surrogate pair. */
  method Fragment(json: Text) returns (parts: seq<Text>)
    ensures Fragmentation(json, parts)
  {
    parts := [];
    var start := 0;
    while start < |json|
      invariant Progress(json, start, parts)
    {
      var end := if start + MAX_PART < |json| then start + MAX_PART else |json|;
      if end < |json| && High(json[end - 1]) && Low(json[end]) {
        end := end - 1;
      }
      Extends(json, start, end, parts);
      parts := parts + [json[start..end]];
      start := end;
    }
    assert json[..start] == json;
  }

  lemma {:induction false} Sizes(parts: seq<Text>)
    requires forall i :: 0 <= i < |parts| - 1 ==> MAX_PART - 1 <= |parts[i]|
    ensures parts != [] ==> (|parts| - 1) * (MAX_PART - 1) <= |Join(parts)|
  {
    if |parts| >= 2 {
      var init := parts[..|parts| - 1];
      Sizes(init);
      assert init[..|init| - 1] == parts[..|parts| - 2];
      SizesFull(init);
    }
  }

  lemma {:induction false} SizesFull(parts: seq<Text>)
    requires forall i :: 0 <= i < |parts| ==> MAX_PART - 1 <= |parts[i]|
    ensures |parts| * (MAX_PART - 1) <= |Join(parts)|
  {
    if parts != [] {
      SizesFull(parts[..|parts| - 1]);
    }
  }

  /** A screen within the limit needs at most 17 fragments, of the 32 a reader takes. */
  lemma FewFragments(json: Text, parts: seq<Text>)
    requires Fragmentation(json, parts) && Bytes(json) <= SCREEN_LIMIT
    ensures |parts| <= 17
  {
    Sizes(parts);
    BytesBounded(json);
  }

  // ----- What the relay sends

  datatype Emission = TooLarge | Whole(json: Text) | Parts(parts: seq<Text>)

  method EmitNative(json: Text) returns (r: Emission)
    ensures r.TooLarge? <==> Bytes(json) > SCREEN_LIMIT
    ensures r.Whole? <==> Bytes(json) <= FRAME_LIMIT
    ensures r.Whole? ==> r.json == json
    ensures r.Parts? ==> Fragmentation(json, r.parts) && 2 <= |r.parts| <= 17
  {
    var size := Bytes(json);
    if size > SCREEN_LIMIT {
      return TooLarge;
    }
    if size <= FRAME_LIMIT {
      return Whole(json);
    }
    var parts := Fragment(json);
    FewFragments(json, parts);
    if |parts| <= 1 {
      SmallText(json, parts);
    }
    r := Parts(parts);
  }

  /** One part alone holds at most three bytes for each of its units. */
  lemma SmallText(json: Text, parts: seq<Text>)
    requires Fragmentation(json, parts) && |parts| <= 1
    ensures Bytes(json) <= 3 * MAX_PART
  {
    BytesBounded(json);
    if parts == [] {
    } else {
      assert parts[..0] == [];
      assert Join(parts) == [] + parts[0];
    }
  }

  // ----- What the browser puts together

  datatype Gathering = Idle | Gathering(total: nat, parts: seq<Text>, bytes: nat)

  datatype Reader = Reader(fragments: Gathering, buffered: int)

  datatype Reading = Waiting(reader: Reader) | Delivered(reader: Reader, json: Text) | Rejected

  function Receive(reader: Reader, index: nat, total: nat, data: Text): Reading {
    if index >= total || total > MAX_FRAGMENTS || |data| > MAX_PART then Rejected
    else
      var was := if reader.fragments.Idle? then Gathering(total, [], 0) else reader.fragments;
      var bytes := Bytes(data);
      if was.total != total || |was.parts| != index then Rejected
      else if reader.buffered + bytes > SCREEN_LIMIT then Rejected
      else
        var now := Gathering(total, was.parts + [data], was.bytes + bytes);
        var buffered := reader.buffered + bytes;
        if |now.parts| != total then Waiting(Reader(now, buffered))
        else Delivered(Reader(Idle, buffered - now.bytes), Join(now.parts))
  }

  /** The parts of the screen that is being gathered. */
  function Held(reader: Reader): seq<Text> {
    if reader.fragments.Idle? then [] else reader.fragments.parts
  }

  function HeldBytes(reader: Reader): nat {
    if reader.fragments.Idle? then 0 else reader.fragments.bytes
  }

  /** A fragment is refused exactly if it is malformed, not the next of the screen being gathered, or does not fit. */
  lemma RejectedExactly(reader: Reader, index: nat, total: nat, data: Text)
    ensures Receive(reader, index, total, data).Rejected? <==>
            || index >= total || total > 32 || |data| > 131_072
            || index != |Held(reader)| || (reader.fragments.Gathering? && total != reader.fragments.total)
            || reader.buffered + Bytes(data) > 2_097_152
  {
  }

  /** One that is not refused is held, and the last one delivers the screen and gives the room back. */
  lemma TakenExactly(reader: Reader, index: nat, total: nat, data: Text)
    requires !Receive(reader, index, total, data).Rejected?
    ensures var parts, bytes := Held(reader) + [data], HeldBytes(reader) + Bytes(data);
            Receive(reader, index, total, data) ==
            if index + 1 < total
            then Waiting(Reader(Gathering(total, parts, bytes), reader.buffered + Bytes(data)))
            else Delivered(Reader(Idle, reader.buffered - HeldBytes(reader)), Join(parts))
  {
  }

  /** The reader after the first `n` of these fragments came in order. */
  function ReceiveFirst(reader: Reader, parts: seq<Text>, n: nat): Reading
    requires n <= |parts|
  {
    if n == 0 then Waiting(reader)
    else
      var before := ReceiveFirst(reader, parts, n - 1);
      if before.Waiting? then Receive(before.reader, n - 1, |parts|, parts[n - 1]) else Rejected
  }

  lemma TotalFirst(parts: seq<Text>, n: nat)
    requires 0 < n <= |parts|
    ensures Total(parts[..n]) == Total(parts[..n - 1]) + Bytes(parts[n - 1])
  {
    assert parts[..n][..n - 1] == parts[..n - 1];
  }

  /** Part by part the reader holds what it was sent, for as long as its buffer has room. */
  lemma {:induction false} Gathers(buffered: nat, parts: seq<Text>, n: nat)
    requires 0 < n < |parts| <= MAX_FRAGMENTS && forall i :: 0 <= i < |parts| ==> |parts[i]| <= MAX_PART
    ensures var bytes := Total(parts[..n]);
            ReceiveFirst(Reader(Idle, buffered), parts, n) ==
            if buffered + bytes <= SCREEN_LIMIT
              then Waiting(Reader(Gathering(|parts|, parts[..n], bytes), buffered + bytes))
            else Rejected
  {
    TotalFirst(parts, n);
    assert parts[..n] == parts[..n - 1] + [parts[n - 1]];
    if n > 1 {
      Gathers(buffered, parts, n - 1);
    }
  }

  lemma Completes(buffered: nat, parts: seq<Text>)
    requires 0 < |parts| <= MAX_FRAGMENTS && |parts[|parts| - 1]| <= MAX_PART
    ensures var n, init, last := |parts|, parts[..|parts| - 1], parts[|parts| - 1];
            var held := if n == 1 then Idle else Gathering(n, init, Total(init));
            Receive(Reader(held, buffered + Total(init)), n - 1, n, last) ==
            if buffered + Total(parts) <= SCREEN_LIMIT then Delivered(Reader(Idle, buffered), Join(parts)) else Rejected
  {
    assert parts == parts[..|parts| - 1] + [parts[|parts| - 1]];
  }

  lemma Delivers(buffered: nat, parts: seq<Text>)
    requires 0 < |parts| <= MAX_FRAGMENTS && forall i :: 0 <= i < |parts| ==> |parts[i]| <= MAX_PART
    ensures ReceiveFirst(Reader(Idle, buffered), parts, |parts|) ==
            if buffered + Total(parts) <= SCREEN_LIMIT then Delivered(Reader(Idle, buffered), Join(parts)) else Rejected
  {
    Completes(buffered, parts);
    if |parts| > 1 {
      Gathers(buffered, parts, |parts| - 1);
    }
  }

  /** Round trip: the browser gets the very text, exactly when its buffer has room for the whole of it. */
  lemma RoundTrip(json: Text, parts: seq<Text>, buffered: nat)
    requires Fragmentation(json, parts) && json != [] && Bytes(json) <= SCREEN_LIMIT
    ensures ReceiveFirst(Reader(Idle, buffered), parts, |parts|) ==
            if buffered + Bytes(json) <= SCREEN_LIMIT then Delivered(Reader(Idle, buffered), json) else Rejected
  {
    FewFragments(json, parts);
    Delivers(buffered, parts);
  }
}
