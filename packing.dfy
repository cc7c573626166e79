/**
 * The greedy packing of metric lines into UDP packets done by a pipeline's
 * flush.  A packet is kept as its list of lines; `Join` gives the payload
 * string that goes on the wire.
 */
module Packing {

  /** `'\n'.join(lines)`, built from the right as the flush loop builds it. */
  function Join(lines: seq<string>): (payload: string)
  {
    if |lines| == 0 then ""
    else if |lines| == 1 then lines[0]
    else Join(lines[..|lines| - 1]) + "\n" + lines[|lines| - 1]
  }

  /** Total length of the lines, separators not counted. */
  function LinesLength(lines: seq<string>): (total: nat)
  {
    if lines == [] then 0 else |lines[0]| + LinesLength(lines[1..])
  }

  /** The lines of all packets, in order. */
  function Flatten(packets: seq<seq<string>>): (lines: seq<string>)
  {
    if packets == [] then [] else packets[0] + Flatten(packets[1..])
  }

  /**
   * The packets a flush emits when its current packet holds `data` and
   * `rest` is still queued: the next line joins the packet exactly when
   * `len(line) + len(packet) + 1 < maxSize`.
   */
  function PackFrom(data: seq<string>, rest: seq<string>, maxSize: int): (packets: seq<seq<string>>)
    requires |data| > 0
    ensures 1 <= |packets| <= |rest| + 1
    ensures forall i :: 0 <= i < |packets| ==> |packets[i]| > 0
    ensures |data| <= |packets[0]| && packets[0][..|data|] == data
    decreases |rest|
  {
    if rest == [] then [data]
    else if |rest[0]| + |Join(data)| + 1 >= maxSize then [data] + PackFrom([rest[0]], rest[1..], maxSize)
    else PackFrom(data + [rest[0]], rest[1..], maxSize)
  }

  /** The packets a flush emits for a non-empty queue. */
  function Pack(queue: seq<string>, maxSize: int): (packets: seq<seq<string>>)
    requires |queue| > 0
    ensures 1 <= |packets| <= |queue|
  {
    PackFrom([queue[0]], queue[1..], maxSize)
  }

  /**
   * What a correct greedy flush of `queue` must produce, stated without
   * reference to the loop: the packets hold the queue's lines in order, none
   * is empty, each packet of two or more lines is shorter than `maxSize`, and
   * no packet could have taken the first line of the packet after it.
   */
  ghost predicate GreedyPacking(packets: seq<seq<string>>, queue: seq<string>, maxSize: int)
  {
    && Flatten(packets) == queue
    && (forall i :: 0 <= i < |packets| ==> |packets[i]| > 0)
    && MultiLineBounded(packets, maxSize)
    && Maximal(packets, maxSize)
  }

  /** Every packet of two or more lines is shorter than `maxSize`. */
  ghost predicate MultiLineBounded(packets: seq<seq<string>>, maxSize: int)
  {
    forall i :: 0 <= i < |packets| && |packets[i]| >= 2 ==> |Join(packets[i])| < maxSize
  }

  /** No non-empty packet could have taken the first line of the packet after it. */
  ghost predicate Maximal(packets: seq<seq<string>>, maxSize: int)
  {
    forall i :: 0 <= i < |packets| - 1 && |packets[i + 1]| > 0 ==>
      |Join(packets[i])| + 1 + |packets[i + 1][0]| >= maxSize
  }

  /** Appending a line to a non-empty packet adds a separator and the line. */
  lemma JoinSnoc(lines: seq<string>, line: string)
    requires |lines| > 0
    ensures Join(lines + [line]) == Join(lines) + "\n" + line
  {
    assert (lines + [line])[..|lines|] == lines;
  }

  /** A packet's payload is its lines plus one separator between each two. */
  lemma {:induction false} JoinLength(lines: seq<string>)
    requires |lines| > 0
    ensures |Join(lines)| == LinesLength(lines) + |lines| - 1
  {
    if |lines| > 1 {
      var init := lines[..|lines| - 1];
      JoinLength(init);
      LinesLengthSnoc(init, lines[|lines| - 1]);
      assert init + [lines[|lines| - 1]] == lines;
    }
  }

  lemma {:induction false} LinesLengthSnoc(lines: seq<string>, line: string)
    ensures LinesLength(lines + [line]) == LinesLength(lines) + |line|
  {
    if lines != [] {
      assert (lines + [line])[1..] == lines[1..] + [line];
      LinesLengthSnoc(lines[1..], line);
    }
  }

  /** A longer prefix of the same lines never has a shorter payload. */
  lemma {:induction false} JoinPrefixGrows(lines: seq<string>, i: nat, j: nat)
    requires 1 <= i <= j <= |lines|
    ensures |Join(lines[..i])| <= |Join(lines[..j])|
  {
    if i < j {
      JoinPrefixGrows(lines, i, j - 1);
      JoinSnoc(lines[..j - 1], lines[j - 1]);
      assert lines[..j - 1] + [lines[j - 1]] == lines[..j];
    }
  }

  lemma {:induction false} FlattenAppend(a: seq<seq<string>>, b: seq<seq<string>>)
    ensures Flatten(a + b) == Flatten(a) + Flatten(b)
  {
    if a == [] {
      assert a + b == b;
    } else {
      assert (a + b)[0] == a[0];
      assert (a + b)[1..] == a[1..] + b;
      FlattenAppend(a[1..], b);
    }
  }

  /** No line is lost, duplicated or reordered by the packing. */
  lemma {:induction false} PackFromFlatten(data: seq<string>, rest: seq<string>, maxSize: int)
    requires |data| > 0
    ensures Flatten(PackFrom(data, rest, maxSize)) == data + rest
    decreases |rest|
  {
    if rest == [] {
      assert Flatten([data]) == data + Flatten([]);
    } else if |rest[0]| + |Join(data)| + 1 >= maxSize {
      PackFromFlatten([rest[0]], rest[1..], maxSize);
      var tail := PackFrom([rest[0]], rest[1..], maxSize);
      assert ([data] + tail)[1..] == tail;
      assert [rest[0]] + rest[1..] == rest;
    } else {
      PackFromFlatten(data + [rest[0]], rest[1..], maxSize);
      assert data + [rest[0]] + rest[1..] == data + rest;
    }
  }

  /** Every packet of two or more lines stays under the size limit. */
  lemma {:induction false} PackFromBound(data: seq<string>, rest: seq<string>, maxSize: int)
    requires |data| > 0
    requires |data| >= 2 ==> |Join(data)| < maxSize
    ensures MultiLineBounded(PackFrom(data, rest, maxSize), maxSize)
    decreases |rest|
  {
    if rest == [] {
    } else if |rest[0]| + |Join(data)| + 1 >= maxSize {
      PackFromBound([rest[0]], rest[1..], maxSize);
      var tail := PackFrom([rest[0]], rest[1..], maxSize);
      var ps := [data] + tail;
      assert PackFrom(data, rest, maxSize) == ps;
      forall i | 0 <= i < |ps| && |ps[i]| >= 2
        ensures |Join(ps[i])| < maxSize
      {
        if i == 0 {
          assert ps[0] == data;
        } else {
          assert ps[i] == tail[i - 1];
        }
      }
    } else {
      JoinSnoc(data, rest[0]);
      PackFromBound(data + [rest[0]], rest[1..], maxSize);
      assert PackFrom(data, rest, maxSize) == PackFrom(data + [rest[0]], rest[1..], maxSize);
    }
  }

  /** No packet could have taken the first line of the packet that follows it. */
  lemma {:induction false} PackFromMaximal(data: seq<string>, rest: seq<string>, maxSize: int)
    requires |data| > 0
    ensures Maximal(PackFrom(data, rest, maxSize), maxSize)
    decreases |rest|
  {
    if rest == [] {
    } else if |rest[0]| + |Join(data)| + 1 >= maxSize {
      PackFromMaximal([rest[0]], rest[1..], maxSize);
      var tail := PackFrom([rest[0]], rest[1..], maxSize);
      var ps := [data] + tail;
      assert PackFrom(data, rest, maxSize) == ps;
      assert tail[0][0] == tail[0][..1][0] == rest[0];
      forall i | 0 <= i < |ps| - 1 && |ps[i + 1]| > 0
        ensures |Join(ps[i])| + 1 + |ps[i + 1][0]| >= maxSize
      {
        assert ps[i + 1] == tail[i];
        if i == 0 {
          assert ps[0] == data;
        } else {
          assert ps[i] == tail[i - 1];
        }
      }
    } else {
      PackFromMaximal(data + [rest[0]], rest[1..], maxSize);
      assert PackFrom(data, rest, maxSize) == PackFrom(data + [rest[0]], rest[1..], maxSize);
    }
  }

  /** The flush's packets are a greedy packing of the queue. */
  lemma PackIsGreedy(queue: seq<string>, maxSize: int)
    requires |queue| > 0
    ensures GreedyPacking(Pack(queue, maxSize), queue, maxSize)
    ensures 1 <= |Pack(queue, maxSize)| <= |queue|
  {
    PackFromFlatten([queue[0]], queue[1..], maxSize);
    assert [queue[0]] + queue[1..] == queue;
    PackFromBound([queue[0]], queue[1..], maxSize);
    PackFromMaximal([queue[0]], queue[1..], maxSize);
  }

  /** The first packet of a packing is a prefix of the queue and the rest pack the remainder. */
  lemma GreedyPackingTail(packets: seq<seq<string>>, queue: seq<string>, maxSize: int)
    requires GreedyPacking(packets, queue, maxSize)
    requires |packets| > 0
    ensures |packets[0]| <= |queue| && packets[0] == queue[..|packets[0]|]
    ensures GreedyPacking(packets[1..], queue[|packets[0]|..], maxSize)
    ensures |packets| > 1 ==> |packets[0]| < |queue| && packets[1][0] == queue[|packets[0]|]
  {
    var tail := packets[1..];
    assert Flatten(packets) == packets[0] + Flatten(tail);
    assert Flatten(tail) == queue[|packets[0]|..];
    assert forall i :: 0 <= i < |tail| ==> tail[i] == packets[i + 1];
    if |packets| > 1 {
      assert Flatten(tail) == tail[0] + Flatten(tail[1..]);
    }
  }

  /** A packing with no packets packs only the empty queue. */
  lemma GreedyPackingEmpty(packets: seq<seq<string>>, queue: seq<string>, maxSize: int)
    requires GreedyPacking(packets, queue, maxSize)
    ensures packets == [] <==> queue == []
  {
    if packets != [] {
      assert Flatten(packets) == packets[0] + Flatten(packets[1..]);
    }
  }

  /**
   * The first packet of a greedy packing cannot be extended: every longer
   * prefix of the queue reaches the size limit.
   */
  lemma FirstPacketMaximal(packets: seq<seq<string>>, queue: seq<string>, maxSize: int)
    requires GreedyPacking(packets, queue, maxSize)
    requires |packets| > 0
    ensures forall b :: |packets[0]| < b <= |queue| ==> |Join(queue[..b])| >= maxSize
  {
    GreedyPackingTail(packets, queue, maxSize);
    var a := |packets[0]|;
    forall b | a < b <= |queue|
      ensures |Join(queue[..b])| >= maxSize
    {
      GreedyPackingEmpty(packets[1..], queue[a..], maxSize);
      assert |packets| > 1;
      JoinSnoc(queue[..a], queue[a]);
      assert queue[..a] + [queue[a]] == queue[..a + 1];
      JoinPrefixGrows(queue, a + 1, b);
    }
  }

  /** There is only one greedy packing of a queue. */
  lemma {:induction false} GreedyPackingUnique(ps: seq<seq<string>>, qs: seq<seq<string>>,
                                               queue: seq<string>, maxSize: int)
    requires GreedyPacking(ps, queue, maxSize) && GreedyPacking(qs, queue, maxSize)
    ensures ps == qs
    decreases |queue|
  {
    GreedyPackingEmpty(ps, queue, maxSize);
    GreedyPackingEmpty(qs, queue, maxSize);
    if queue != [] {
      GreedyPackingTail(ps, queue, maxSize);
      GreedyPackingTail(qs, queue, maxSize);
      FirstPacketMaximal(ps, queue, maxSize);
      FirstPacketMaximal(qs, queue, maxSize);
      var a := |ps[0]|;
      assert a == |qs[0]|;
      GreedyPackingUnique(ps[1..], qs[1..], queue[a..], maxSize);
      assert ps == [ps[0]] + ps[1..] && qs == [qs[0]] + qs[1..];
    }
  }

  /** The flush's packets are exactly the greedy packings of the queue. */
  lemma PackCharacterized(packets: seq<seq<string>>, queue: seq<string>, maxSize: int)
    requires |queue| > 0
    ensures packets == Pack(queue, maxSize) <==> GreedyPacking(packets, queue, maxSize)
  {
    PackIsGreedy(queue, maxSize);
    if GreedyPacking(packets, queue, maxSize) {
      GreedyPackingUnique(packets, Pack(queue, maxSize), queue, maxSize);
    }
  }

  /**
   * No packet is longer than the limit unless it is one queued line on its
   * own, sent whole.
   */
  lemma PackSizeBound(queue: seq<string>, maxSize: int)
    requires |queue| > 0
    ensures var ps := Pack(queue, maxSize);
            forall i :: 0 <= i < |ps| ==> |Join(ps[i])| < maxSize || (|ps[i]| == 1 && ps[i][0] in queue)
  {
    var ps := Pack(queue, maxSize);
    PackIsGreedy(queue, maxSize);
    forall i | 0 <= i < |ps| && |ps[i]| == 1
      ensures ps[i][0] in queue
    {
      FlattenAppend(ps[..i], ps[i..]);
      assert ps[..i] + ps[i..] == ps;
      assert Flatten(ps[i..]) == ps[i] + Flatten(ps[i + 1..]);
      assert queue == Flatten(ps[..i]) + (ps[i] + Flatten(ps[i + 1..]));
      assert queue[|Flatten(ps[..i])|] == ps[i][0];
    }
  }

  /** Three 7-character lines with a 20-character limit: the first two share a packet. */
  lemma ThreeLineExample()
    ensures Pack(["a.b:1|c", "c.d:2|c", "e.f:3|c"], 20) == [["a.b:1|c", "c.d:2|c"], ["e.f:3|c"]]
    ensures Join(["a.b:1|c", "c.d:2|c"]) == "a.b:1|c\nc.d:2|c"
  {
    var q := ["a.b:1|c", "c.d:2|c", "e.f:3|c"];
    var first := ["a.b:1|c", "c.d:2|c"];
    assert q[1..] == ["c.d:2|c", "e.f:3|c"] && q[1..][1..] == ["e.f:3|c"];
    assert first[..1] == ["a.b:1|c"] && ["a.b:1|c"] + ["c.d:2|c"] == first;
    assert Join(first) == "a.b:1|c\nc.d:2|c";
    assert Pack(q, 20) == PackFrom(first, ["e.f:3|c"], 20);
    assert PackFrom(first, ["e.f:3|c"], 20) == [first] + PackFrom(["e.f:3|c"], [], 20);
  }
}
