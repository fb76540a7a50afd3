/** Records of what was tried on which positions of a batch, and what was answered. */
module Trials {

  datatype Trial<A> = Trial(low: nat, high: nat, answer: A)

  /** Some trial holding the position was answered so. */
  ghost predicate Met<A(!new)>(trials: seq<Trial<A>>, position: nat, answer: A) {
    exists t <- trials :: t.low <= position < t.high && t.answer == answer
  }

  /** Some trial of that position alone was answered so. */
  ghost predicate MetAlone<A(!new)>(trials: seq<Trial<A>>, position: nat, answer: A) {
    Trial(position, position + 1, answer) in trials
  }

  ghost predicate Within<A(!new)>(trials: seq<Trial<A>>, low: nat, high: nat) {
    forall t <- trials :: low <= t.low && t.high <= high
  }

  lemma MetConcat<A(!new)>(a: seq<Trial<A>>, b: seq<Trial<A>>, position: nat, answer: A)
    ensures Met(a + b, position, answer) <==> Met(a, position, answer) || Met(b, position, answer)
    ensures MetAlone(a + b, position, answer) <==> MetAlone(a, position, answer) || MetAlone(b, position, answer)
  {
    if Met(a, position, answer) {
      var t :| t in a && t.low <= position < t.high && t.answer == answer;
      assert t in a + b;
    }
    if Met(b, position, answer) {
      var t :| t in b && t.low <= position < t.high && t.answer == answer;
      assert t in a + b;
    }
  }

  lemma NotMetOutside<A(!new)>(trials: seq<Trial<A>>, low: nat, high: nat, position: nat, answer: A)
    requires Within(trials, low, high) && !(low <= position < high)
    ensures !Met(trials, position, answer) && !MetAlone(trials, position, answer)
  {
  }

  lemma WithinConcat<A(!new)>(a: seq<Trial<A>>, b: seq<Trial<A>>, low: nat, high: nat)
    requires Within(a, low, high) && Within(b, low, high)
    ensures Within(a + b, low, high)
  {
  }

  /** The same trials on positions further on. */
  function Shifted<A>(trials: seq<Trial<A>>, offset: nat): seq<Trial<A>> {
    seq(|trials|, i requires 0 <= i < |trials| =>
          Trial(trials[i].low + offset, trials[i].high + offset, trials[i].answer))
  }

  lemma ShiftedWithin<A(!new)>(trials: seq<Trial<A>>, n: nat, offset: nat)
    requires Within(trials, 0, n)
    ensures Within(Shifted(trials, offset), offset, offset + n)
  {
    var shifted := Shifted(trials, offset);
    forall t | t in shifted ensures offset <= t.low && t.high <= offset + n {
      var i :| 0 <= i < |shifted| && shifted[i] == t;
      assert trials[i] in trials;
    }
  }

  lemma ShiftedMembers<A(!new)>(trials: seq<Trial<A>>, offset: nat, low: nat, high: nat, answer: A)
    requires low >= offset && high >= offset
    ensures Trial(low, high, answer) in Shifted(trials, offset) <==>
            Trial(low - offset, high - offset, answer) in trials
  {
    var shifted := Shifted(trials, offset);
    if Trial(low, high, answer) in shifted {
      var i :| 0 <= i < |shifted| && shifted[i] == Trial(low, high, answer);
      assert trials[i] == Trial(low - offset, high - offset, answer);
    }
    if Trial(low - offset, high - offset, answer) in trials {
      var i :| 0 <= i < |trials| && trials[i] == Trial(low - offset, high - offset, answer);
      assert shifted[i] == Trial(low, high, answer);
    }
  }

  lemma ShiftedAreBeyond<A(!new)>(trials: seq<Trial<A>>, offset: nat)
    ensures forall t <- Shifted(trials, offset) :: t.low >= offset && t.high >= offset
  {
  }

  lemma MetShifted<A(!new)>(trials: seq<Trial<A>>, offset: nat, position: nat, answer: A)
    requires position >= offset
    ensures Met(Shifted(trials, offset), position, answer) <==> Met(trials, position - offset, answer)
    ensures MetAlone(Shifted(trials, offset), position, answer) <==> MetAlone(trials, position - offset, answer)
  {
    var shifted := Shifted(trials, offset);
    ShiftedMembers(trials, offset, position, position + 1, answer);
    if Met(shifted, position, answer) {
      var t :| t in shifted && t.low <= position < t.high && t.answer == answer;
      ShiftedAreBeyond(trials, offset);
      ShiftedMembers(trials, offset, t.low, t.high, answer);
    }
    if Met(trials, position - offset, answer) {
      var t :| t in trials && t.low <= position - offset < t.high && t.answer == answer;
      ShiftedMembers(trials, offset, t.low + offset, t.high + offset, answer);
    }
  }

  /** A trial of a whole batch of `n`, then those of its left part and of its right part. */
  function Halves<A>(answer: A, n: nat, left: seq<Trial<A>>, right: seq<Trial<A>>, mid: nat): seq<Trial<A>> {
    [Trial(0, n, answer)] + (left + Shifted(right, mid))
  }

  lemma HalvesWithin<A(!new)>(answer: A, n: nat, left: seq<Trial<A>>, right: seq<Trial<A>>, mid: nat)
    requires mid <= n && Within(left, 0, mid) && Within(right, 0, n - mid)
    ensures Within(Halves(answer, n, left, right, mid), 0, n)
    ensures |Halves(answer, n, left, right, mid)| == 1 + |left| + |right|
  {
    ShiftedWithin(right, n - mid, mid);
    assert Within(left, 0, n) && Within(Shifted(right, mid), 0, n);
    WithinConcat(left, Shifted(right, mid), 0, n);
    WithinConcat([Trial(0, n, answer)], left + Shifted(right, mid), 0, n);
  }

  lemma HalvesAt<A>(answer: A, n: nat, left: seq<Trial<A>>, right: seq<Trial<A>>, mid: nat, j: nat)
    requires j < 1 + |left| + |right|
    ensures |Halves(answer, n, left, right, mid)| == 1 + |left| + |right|
    ensures var t := Halves(answer, n, left, right, mid)[j];
            && (j == 0 ==> t == Trial(0, n, answer))
            && (0 < j <= |left| ==> t == left[j - 1])
            && (j > |left| ==> var u := right[j - 1 - |left|]; t == Trial(u.low + mid, u.high + mid, u.answer))
  {
  }

  /** What the halves met is what the whole met, apart from the first trial. */
  lemma HalvesMet<A(!new)>(whole: A, n: nat, left: seq<Trial<A>>, right: seq<Trial<A>>, mid: nat, k: nat, answer: A)
    requires mid <= n && 1 < n && k < n && Within(left, 0, mid) && Within(right, 0, n - mid)
    ensures var all := Halves(whole, n, left, right, mid);
            && (Met(all, k, answer) <==>
                  whole == answer || (if k < mid then Met(left, k, answer) else Met(right, k - mid, answer)))
            && (MetAlone(all, k, answer) <==>
                  if k < mid then MetAlone(left, k, answer) else MetAlone(right, k - mid, answer))
  {
    var shifted, first := Shifted(right, mid), [Trial(0, n, whole)];
    assert Trial(0, n, whole) in first;
    MetConcat(first, left + shifted, k, answer);
    MetConcat(left, shifted, k, answer);
    if k < mid {
      ShiftedWithin(right, n - mid, mid);
      NotMetOutside(shifted, mid, n, k, answer);
    } else {
      NotMetOutside(left, 0, mid, k, answer);
      MetShifted(right, mid, k, answer);
    }
  }
}
