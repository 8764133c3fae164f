/** The run-length encoding of the connection key. */
module Rle {
  import opened Bits
  import opened Hex
  import opened Wire

  const LONGEST: nat := 25

  datatype Run = Run(count: nat, symbol: byte)

  function Repeat(symbol: byte, n: nat): (s: seq<byte>)
    ensures |s| == n && forall i :: 0 <= i < n ==> s[i] == symbol
  {
    seq(n, i => symbol)
  }

  function Decode(runs: seq<Run>): seq<byte>
  {
    if runs == [] then [] else Decode(runs[..|runs| - 1]) + Repeat(runs[|runs| - 1].symbol, runs[|runs| - 1].count)
  }

  /** Every count is writable as a letter from `b` to `z`. */
  predicate Writable(runs: seq<Run>)
  {
    forall i :: 0 <= i < |runs| ==> 1 <= runs[i].count <= LONGEST
  }

  /** A run is followed by the same symbol only when it is full. */
  ghost predicate Greedy(runs: seq<Run>)
  {
    forall i, j :: 0 <= i && j == i + 1 < |runs| && runs[i].symbol == runs[j].symbol ==> runs[i].count == LONGEST
  }

  /** The text of the pairs: a letter for the count, then the symbol. */
  function Letters(runs: seq<Run>): (text: seq<byte>)
    requires Writable(runs)
    ensures |text| == 2 * |runs|
  {
    if runs == [] then []
    else Letters(runs[..|runs| - 1]) + [runs[|runs| - 1].count + 97, runs[|runs| - 1].symbol]
  }

  /** What a text of pairs stands for: a count letter, then the symbol, from front to back. */
  function Unpack(text: seq<byte>): seq<byte>
  {
    if |text| < 2 then []
    else
      var n := |text| - 2;
      Unpack(text[..n]) + Repeat(text[n + 1], if text[n] >= 97 then text[n] - 97 else 0)
  }

  lemma {:induction false} UnpackLetters(runs: seq<Run>)
    requires Writable(runs)
    ensures Unpack(Letters(runs)) == Decode(runs)
  {
    if runs != [] {
      var n := |runs| - 1;
      UnpackLetters(runs[..n]);
      assert Letters(runs)[..2 * n] == Letters(runs[..n]);
    }
  }

  lemma {:induction false} LettersSnoc(runs: seq<Run>, run: Run)
    requires Writable(runs) && 1 <= run.count <= LONGEST
    ensures Writable(runs + [run])
    ensures Letters(runs + [run]) == Letters(runs) + [run.count + 97, run.symbol]
    ensures Decode(runs + [run]) == Decode(runs) + Repeat(run.symbol, run.count)
  {
    assert (runs + [run])[..|runs|] == runs;
  }

  method PutPair(temp: array<byte>, index: nat, ghost runs: seq<Run>, run: Run, ghost more: seq<Run>)
    requires Writable(runs) && 1 <= run.count <= LONGEST && more == runs + [run]
    requires index == 2 * |runs| && index + 2 <= temp.Length && temp[..index] == Letters(runs)
    modifies temp
    ensures Writable(more) && temp[..index + 2] == Letters(more)
  {
    LettersSnoc(runs, run);
    temp[index] := run.count + 97;
    temp[index + 1] := run.symbol;
    assert temp[..index + 2] == temp[..index] + [run.count + 97, run.symbol];
  }

  /** A run is over: it is written, and the next one begins. */
  method EndRun(temp: array<byte>, index: nat, ghost runs: seq<Run>, last: int, counter: nat, ghost seen: seq<byte>,
                current: byte, ghost seen': seq<byte>) returns (ghost more: seq<Run>)
    requires Writable(runs) && index == 2 * |runs| && index + 2 <= temp.Length && temp[..index] == Letters(runs)
    requires Pending(runs, last, counter, seen) && last != -1 && (current != last || counter == LONGEST)
    requires seen' == seen + [current]
    modifies temp
    ensures |more| == |runs| + 1 && Writable(more) && temp[..index + 2] == Letters(more)
    ensures Pending(more, current, 1, seen')
  {
    more := runs + [Run(counter, last)];
    PendingFlush(runs, last, counter, seen, current, more, seen');
    PutPair(temp, index, runs, Run(counter, last), more);
  }

  /** The loop of `rle_string`: all runs but the last one are written. */
  method ScanRuns(input: seq<byte>, temp: array<byte>)
    returns (index: short, last: short, counter: nat, ghost runs: seq<Run>)
    requires |input| <= 16383 && temp.Length == 2 * |input|
    modifies temp
    ensures |runs| + (if input == [] then 0 else 1) <= |input|
    ensures Writable(runs) && index == 2 * |runs| && temp[..index] == Letters(runs)
    ensures Pending(runs, last, counter, input)
  {
    index, last, counter, runs := 0, -1, 0, [];
    for i := 0 to |input|
      invariant |runs| + (if i == 0 then 0 else 1) <= i
      invariant Writable(runs) && index == 2 * |runs| && temp[..index] == Letters(runs)
      invariant Pending(runs, last, counter, input[..i])
    {
      var current := input[i];
      if (current != last && last != -1) || counter >= LONGEST {
        runs := EndRun(temp, index, runs, last, counter, input[..i], current, input[..i + 1]);
        index, counter := index + 2, 1;
      } else {
        PendingGrow(runs, last, counter, input[..i], current, input[..i + 1]);
        counter := counter + 1;
      }
      last := current;
    }
    assert input[..|input|] == input;
  }

  /** `rle_string`. The text unpacks to the input, its counts are the letters `b` to `z`, and it has
      as many pairs as the runs of the input need; full runs are the only ones that the same symbol
      follows. */
  method RleString(input: seq<byte>) returns (text: seq<byte>, ghost runs: seq<Run>)
    requires |input| <= 16383
    ensures Unpack(text) == input && |text| == 2 * PairsNeeded(input)
    ensures forall i :: 0 <= i < |text| && i % 2 == 0 ==> 98 <= text[i] <= 122
    ensures Writable(runs) && Greedy(runs) && Decode(runs) == input && text == Letters(runs)
  {
    var temp := new byte[2 * |input|];
    var index, last, counter, scanned := ScanRuns(input, temp);
    text, runs := LastRun(temp, index, scanned, last, counter, input);
    UnpackLetters(runs);
    GreedyPairCount(runs);
    forall i | 0 <= i < |text| && i % 2 == 0
      ensures 98 <= text[i] <= 122
    {
      LettersAt(runs, i / 2);
    }
  }

  /** The end of `rle_string`: the run being counted is written too. */
  method LastRun(temp: array<byte>, index: nat, ghost scanned: seq<Run>, last: int, counter: nat,
                 ghost input: seq<byte>)
    returns (text: seq<byte>, ghost runs: seq<Run>)
    requires Writable(scanned) && index == 2 * |scanned| && temp.Length == 2 * |input|
    requires |scanned| + (if input == [] then 0 else 1) <= |input|
    requires temp[..index] == Letters(scanned) && Pending(scanned, last, counter, input)
    modifies temp
    ensures Writable(runs) && Greedy(runs) && Decode(runs) == input && text == Letters(runs)
  {
    if counter > 0 {
      runs := scanned + [Run(counter, last)];
      PendingEnds(scanned, last, counter, input, runs);
      PutPair(temp, index, scanned, Run(counter, last), runs);
      text := temp[..index + 2];
    } else {
      runs, text := scanned, temp[..index];
    }
  }

  /** The written runs and the one being counted make up what has been read. */
  ghost predicate Pending(runs: seq<Run>, last: int, counter: nat, seen: seq<byte>)
  {
    if last == -1 then counter == 0 && runs == [] && seen == []
    else
      && 0 <= last < 256 && 1 <= counter <= LONGEST
      && Greedy(runs + [Run(counter, last)])
      && seen == Decode(runs) + Repeat(last, counter)
  }

  lemma PendingEnds(runs: seq<Run>, last: int, counter: nat, seen: seq<byte>, more: seq<Run>)
    requires Writable(runs) && Pending(runs, last, counter, seen) && counter > 0
    requires more == runs + [Run(counter, last)]
    ensures Greedy(more) && Decode(more) == seen
  {
    LettersSnoc(runs, Run(counter, last));
  }

  lemma PendingFlush(runs: seq<Run>, last: int, counter: nat, seen: seq<byte>, current: byte, more: seq<Run>,
                     seen': seq<byte>)
    requires Pending(runs, last, counter, seen) && last != -1
    requires current != last || counter == LONGEST
    requires more == runs + [Run(counter, last)] && seen' == seen + [current]
    ensures Pending(more, current, 1, seen')
  {
    var a := more;
    assert a[..|runs|] == runs;
    var b := a + [Run(1, current)];
    assert forall i :: 0 <= i < |a| ==> b[i] == a[i];
    assert Repeat(current, 1) == [current];
  }

  lemma PendingGrow(runs: seq<Run>, last: int, counter: nat, seen: seq<byte>, current: byte, seen': seq<byte>)
    requires Pending(runs, last, counter, seen) && seen' == seen + [current]
    requires last == -1 || (current == last && counter < LONGEST)
    ensures Pending(runs, current, counter + 1, seen')
  {
    var a, b := runs + [Run(counter, current)], runs + [Run(counter + 1, current)];
    if last == -1 {
      assert Repeat(current, 1) == [current];
    } else {
      assert forall i :: 0 <= i < |runs| ==> b[i] == a[i];
      assert b[|runs|].symbol == a[|runs|].symbol;
      assert Repeat(last, counter) + [current] == Repeat(last, counter + 1);
    }
  }

  // ----- what the encoding achieves ----------------------------------------------------------

  /** Taking symbols off the front of an encoding. */
  function Drop(runs: seq<Run>, n: nat): seq<Run>
    decreases |runs|
  {
    if n == 0 || runs == [] then runs
    else if runs[0].count <= n then Drop(runs[1..], n - runs[0].count)
    else [Run(runs[0].count - n, runs[0].symbol)] + runs[1..]
  }

  lemma {:induction false} DecodeCons(runs: seq<Run>)
    requires runs != []
    ensures Decode(runs) == Repeat(runs[0].symbol, runs[0].count) + Decode(runs[1..])
  {
    var first := Repeat(runs[0].symbol, runs[0].count);
    if |runs| == 1 {
      assert runs[..0] == [] && runs[1..] == [];
      assert [] + first == first + [];
    } else {
      var init, last := runs[..|runs| - 1], runs[|runs| - 1];
      DecodeCons(init);
      assert init[1..] == runs[1..][..|runs| - 2];
      assert first + Decode(init[1..]) + Repeat(last.symbol, last.count)
             == first + (Decode(init[1..]) + Repeat(last.symbol, last.count));
    }
  }

  lemma DropPrefix(a: seq<byte>, b: seq<byte>, n: nat)
    requires |a| <= n <= |a| + |b|
    ensures (a + b)[n..] == b[n - |a|..]
  {
  }

  lemma {:induction false} DropDecodes(runs: seq<Run>, n: nat)
    requires Writable(runs) && n <= |Decode(runs)|
    ensures Writable(Drop(runs, n)) && Decode(Drop(runs, n)) == Decode(runs)[n..]
    ensures |Drop(runs, n)| <= |runs|
    ensures runs != [] && runs[0].count <= n ==> |Drop(runs, n)| < |runs|
    decreases |runs|
  {
    if n > 0 && runs != [] {
      var count, symbol, rest := runs[0].count, runs[0].symbol, runs[1..];
      DecodeCons(runs);
      var whole := Repeat(symbol, count) + Decode(rest);
      if count <= n {
        DropDecodes(rest, n - count);
        DropPrefix(Repeat(symbol, count), Decode(rest), n);
      } else {
        var shorter := [Run(count - n, symbol)] + rest;
        DecodeCons(shorter);
        assert shorter[1..] == rest;
        assert whole[n..] == Repeat(symbol, count - n) + Decode(rest);
      }
    }
  }

  lemma AfterFirstRun(runs: seq<Run>)
    requires Writable(runs) && runs != []
    ensures runs[0].count <= |Decode(runs)|
    ensures forall i :: 0 <= i < runs[0].count ==> Decode(runs)[i] == runs[0].symbol
    ensures Decode(runs)[runs[0].count..] == Decode(runs[1..])
    ensures |runs| > 1 ==> |Decode(runs)| > runs[0].count && Decode(runs)[runs[0].count] == runs[1].symbol
    ensures |runs| == 1 ==> |Decode(runs)| == runs[0].count
  {
    DecodeCons(runs);
    if |runs| > 1 {
      DecodeCons(runs[1..]);
    }
  }

  /** The first run of a greedy encoding takes as much as any first run can. */
  lemma FirstRunIsLongest(greedy: seq<Run>, other: seq<Run>)
    requires Writable(greedy) && Greedy(greedy) && Writable(other)
    requires Decode(greedy) == Decode(other) && greedy != [] && other != []
    ensures other[0].symbol == greedy[0].symbol && other[0].count <= greedy[0].count
  {
    AfterFirstRun(greedy);
    AfterFirstRun(other);
    assert Decode(greedy)[0] == greedy[0].symbol && Decode(other)[0] == other[0].symbol;
  }

  lemma GreedyTail(runs: seq<Run>)
    requires runs != [] && Writable(runs) && Greedy(runs)
    ensures Writable(runs[1..]) && Greedy(runs[1..])
  {
    assert forall i :: 0 <= i < |runs| - 1 ==> runs[1..][i] == runs[i + 1];
  }

  lemma EmptyDecodesEmpty(runs: seq<Run>)
    requires Writable(runs)
    ensures Decode(runs) == [] <==> runs == []
  {
  }

  /** No encoding of the same text with counts from 1 to 25 uses fewer pairs. */
  lemma {:induction false} GreedyIsShortest(greedy: seq<Run>, other: seq<Run>)
    requires Writable(greedy) && Greedy(greedy) && Writable(other)
    requires Decode(greedy) == Decode(other)
    ensures |greedy| <= |other|
    decreases |greedy|
  {
    EmptyDecodesEmpty(greedy);
    EmptyDecodesEmpty(other);
    if greedy != [] {
      var n := greedy[0].count;
      FirstRunIsLongest(greedy, other);
      DecodeCons(greedy);
      assert Decode(greedy)[n..] == Decode(greedy[1..]);
      DropDecodes(other, n);
      GreedyTail(greedy);
      GreedyIsShortest(greedy[1..], Drop(other, n));
    }
  }

  /** The greedy encoding of a text is unique. */
  lemma {:induction false} GreedyIsUnique(a: seq<Run>, b: seq<Run>)
    requires Writable(a) && Greedy(a) && Writable(b) && Greedy(b)
    requires Decode(a) == Decode(b)
    ensures a == b
    decreases |a|
  {
    EmptyDecodesEmpty(a);
    EmptyDecodesEmpty(b);
    if a != [] {
      FirstRunIsLongest(a, b);
      FirstRunIsLongest(b, a);
      DecodeCons(a);
      DecodeCons(b);
      var n := a[0].count;
      assert Decode(a)[n..] == Decode(a[1..]) && Decode(b)[n..] == Decode(b[1..]);
      GreedyTail(a);
      GreedyTail(b);
      GreedyIsUnique(a[1..], b[1..]);
    }
  }

  /** How often a text repeats its first symbol before another one comes. */
  function RunLength(text: seq<byte>): (n: nat)
    ensures n <= |text| && (text != [] ==> n > 0)
  {
    if |text| <= 1 then |text|
    else if text[0] == text[1] then 1 + RunLength(text[1..])
    else 1
  }

  /** The sum over the maximal runs of a text of a twenty-fifth of their lengths, rounded up. */
  function PairsNeeded(text: seq<byte>): nat
  {
    if text == [] then 0 else (RunLength(text) + 24) / 25 + PairsNeeded(text[RunLength(text)..])
  }

  lemma {:induction false} RunLengthOf(symbol: byte, n: nat, tail: seq<byte>)
    requires n > 0
    ensures RunLength(Repeat(symbol, n) + tail) ==
            n + if tail != [] && tail[0] == symbol then RunLength(tail) else 0
  {
    var text := Repeat(symbol, n) + tail;
    if n > 1 {
      assert text[1..] == Repeat(symbol, n - 1) + tail;
      RunLengthOf(symbol, n - 1, tail);
    } else {
      assert text[1..] == tail;
    }
  }

  /** A greedy encoding has exactly as many pairs as the maximal runs need. */
  lemma {:induction false} GreedyPairCount(runs: seq<Run>)
    requires Writable(runs) && Greedy(runs)
    ensures |runs| == PairsNeeded(Decode(runs))
    decreases |runs|
  {
    if runs != [] {
      var n, symbol, text, tail := runs[0].count, runs[0].symbol, Decode(runs), Decode(runs[1..]);
      AfterFirstRun(runs);
      GreedyTail(runs);
      GreedyPairCount(runs[1..]);
      assert text == Repeat(symbol, n) + tail;
      RunLengthOf(symbol, n, tail);
      if |runs| > 1 && runs[1].symbol == symbol {
        assert text[RunLength(text)..] == tail[RunLength(tail)..];
      } else {
        assert text[RunLength(text)..] == tail;
      }
    }
  }

  lemma {:induction false} LettersAt(runs: seq<Run>, i: nat)
    requires Writable(runs) && i < |runs|
    ensures Letters(runs)[2 * i] == runs[i].count + 97 && Letters(runs)[2 * i + 1] == runs[i].symbol
  {
    if i < |runs| - 1 {
      LettersAt(runs[..|runs| - 1], i);
    }
  }

  /** The pairs can be read off the text again. */
  lemma LettersInjective(a: seq<Run>, b: seq<Run>)
    requires Writable(a) && Writable(b) && Letters(a) == Letters(b)
    ensures a == b
  {
    assert |a| == |b|;
    forall i | 0 <= i < |a|
      ensures a[i] == b[i]
    {
      LettersAt(a, i);
      LettersAt(b, i);
    }
  }

  /** Two connection keys print the same alternate key only if they are the same bytes. */
  method AlternateKeysTellApart(a: seq<byte>, b: seq<byte>) returns (same: bool)
    requires |a| <= 8191 && |b| <= 8191
    ensures same <==> a == b
  {
    var x, runsA := RleString(Hexify(a));
    var y, runsB := RleString(Hexify(b));
    same := x == y;
    if x == y {
      HexifyInjective(a, b);
    } else if a == b {
      GreedyIsUnique(runsA, runsB);
    }
  }
}
