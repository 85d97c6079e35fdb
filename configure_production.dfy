/** The combination iterator of experimentor/configure_production.py: a
    mixed-radix counter (`index`) over the parameter sets, the last set varying
    fastest, and the `(title, conf)` pair built from the current digits. */
module ConfigureProduction {
  import opened Common

  /** A parameter value: a non-dict value as `str` renders it, or a dict of
      options, each option value as `str` renders it. */
  datatype Value = Scalar(text: string) | Options(flags: seq<(string, string)>)

  type Entry = (string, Value)

  /** One dict of the configuration list, in insertion order. */
  type ParamSet = seq<Entry>

  /** The `conf` dict that one combination produces, in insertion order. */
  type Conf = seq<Entry>

  // ---------------------------------------------------------------------
  // The counter: mixed radix, the last digit least significant.
  // ---------------------------------------------------------------------

  /** `num_index`: the number of choices of every parameter set. */
  function Sizes(config: seq<ParamSet>): (r: seq<nat>)
    ensures |r| == |config|
    ensures forall i :: 0 <= i < |config| ==> r[i] == |config[i]|
  {
    seq(|config|, i requires 0 <= i < |config| => |config[i]|)
  }

  /** The number of combinations; the empty product is 1. */
  function Product(r: seq<nat>): nat
  {
    if |r| == 0 then 1 else Product(r[..|r| - 1]) * r[|r| - 1]
  }

  function Zeros(n: nat): (z: seq<nat>)
    ensures |z| == n && forall i :: 0 <= i < n ==> z[i] == 0
  {
    seq(n, _ => 0)
  }

  /** Every digit is a valid choice of its set. */
  predicate InRange(d: seq<nat>, r: seq<nat>)
  {
    |d| == |r| && forall i :: 0 <= i < |d| ==> d[i] < r[i]
  }

  /** The digits of the k-th combination in odometer order. A radix of 0 (an
      empty parameter set) contributes the digit 0, the value `index` starts with. */
  function Unrank(k: nat, r: seq<nat>): (d: seq<nat>)
    ensures |d| == |r|
    decreases |r|
  {
    if |r| == 0 then []
    else
      var b := r[|r| - 1];
      if b == 0 then Unrank(k, r[..|r| - 1]) + [0]
      else Unrank(k / b, r[..|r| - 1]) + [k % b]
  }

  /** The position of a digit sequence in odometer order. */
  function Rank(d: seq<nat>, r: seq<nat>): nat
    requires |d| == |r|
    decreases |r|
  {
    if |r| == 0 then 0
    else Rank(d[..|d| - 1], r[..|r| - 1]) * r[|r| - 1] + d[|d| - 1]
  }

  /** What `increment` does to `index`, and whether the carry passes the first
      position (which sets `finished`). */
  function Incremented(d: seq<nat>, r: seq<nat>): (c: (seq<nat>, bool))
    requires |d| == |r|
    ensures |c.0| == |d|
    decreases |d|
  {
    if |d| == 0 then ([], true)
    else
      var n := |d| - 1;
      if d[n] + 1 >= r[n] then
        var p := Incremented(d[..n], r[..n]);
        (p.0 + [0], p.1)
      else
        (d[..n] + [d[n] + 1], false)
  }

  lemma MulMono(x: nat, y: nat, b: nat)
    requires x <= y
    ensures x * b <= y * b
  {
  }

  lemma MulStep(q: nat, b: nat)
    ensures (q + 1) * b == q * b + b
  {
  }

  /** Quotient and remainder are determined by `n == q * b + m`, `m < b`. */
  lemma DivMod(n: nat, b: nat, q: nat, m: nat)
    requires m < b && n == q * b + m
    ensures n / b == q && n % b == m
  {
    var q', m' := n / b, n % b;
    assert n == q' * b + m';
    if q' < q {
      MulMono(q' + 1, q, b);
      MulStep(q', b);
    } else if q < q' {
      MulMono(q + 1, q', b);
      MulStep(q, b);
    }
  }

  /** Below `p * b`, the quotient by `b` lies below `p`. */
  lemma Split(k: nat, p: nat, b: nat)
    requires b > 0 && k < p * b
    ensures k / b < p && k == k / b * b + k % b && k % b < b
  {
    assert k == k / b * b + k % b;
    if k / b >= p {
      MulMono(p, k / b, b);
    }
  }

  /** Below `p * b`, a number `q * b + m` has `q < p`, and its successor
      reaches `p * b` only from `q == p - 1, m == b - 1`. */
  lemma Below(q: nat, m: nat, p: nat, b: nat)
    requires m < b && q < p
    ensures q * b + m < p * b
    ensures q * b + m + 1 == p * b <==> q + 1 == p && m + 1 == b
  {
    MulMono(q + 1, p, b);
    MulStep(q, b);
    if q + 1 < p {
      MulMono(q + 2, p, b);
      MulStep(q + 1, b);
    }
  }

  lemma {:induction false} ProductPositive(r: seq<nat>)
    ensures Product(r) > 0 <==> forall i :: 0 <= i < |r| ==> r[i] > 0
  {
    if |r| > 0 {
      var n := |r| - 1;
      ProductPositive(r[..n]);
      assert forall i :: 0 <= i < n ==> r[..n][i] == r[i];
    }
  }

  lemma {:induction false} UnrankZero(r: seq<nat>)
    ensures Unrank(0, r) == Zeros(|r|)
  {
    if |r| > 0 {
      UnrankZero(r[..|r| - 1]);
    }
  }

  /** The last step of `Unrank` when the product is positive. */
  lemma UnrankLast(k: nat, r: seq<nat>)
    requires |r| > 0 && k < Product(r)
    ensures r[|r| - 1] > 0
    ensures k / r[|r| - 1] < Product(r[..|r| - 1])
    ensures k == k / r[|r| - 1] * r[|r| - 1] + k % r[|r| - 1]
    ensures Unrank(k, r) == Unrank(k / r[|r| - 1], r[..|r| - 1]) + [k % r[|r| - 1]]
  {
    var n, b := |r| - 1, r[|r| - 1];
    assert Product(r) == Product(r[..n]) * b;
    Split(k, Product(r[..n]), b);
  }

  /** The k-th combination uses a valid choice in every set. */
  lemma {:induction false} UnrankInRange(k: nat, r: seq<nat>)
    requires k < Product(r)
    ensures InRange(Unrank(k, r), r)
    decreases |r|
  {
    if |r| > 0 {
      var n, b := |r| - 1, r[|r| - 1];
      UnrankLast(k, r);
      UnrankInRange(k / b, r[..n]);
      var d := Unrank(k, r);
      assert d[..n] == Unrank(k / b, r[..n]);
      assert forall i :: 0 <= i < n ==> d[i] == d[..n][i] && r[i] == r[..n][i];
    }
  }

  /** Unrank is injective below the product: every position names a
      different combination. */
  lemma {:induction false} RankUnrank(k: nat, r: seq<nat>)
    requires k < Product(r)
    ensures Rank(Unrank(k, r), r) == k
    decreases |r|
  {
    if |r| > 0 {
      var n, b := |r| - 1, r[|r| - 1];
      UnrankLast(k, r);
      RankUnrank(k / b, r[..n]);
      var d := Unrank(k, r);
      assert d[..n] == Unrank(k / b, r[..n]) && d[n] == k % b;
      assert Rank(d, r) == Rank(d[..n], r[..n]) * b + d[n];
    }
  }

  /** Unrank is onto: every valid digit sequence is reached, at its rank,
      which lies below the product. */
  lemma {:induction false} UnrankRank(d: seq<nat>, r: seq<nat>)
    requires InRange(d, r)
    ensures Rank(d, r) < Product(r)
    ensures Unrank(Rank(d, r), r) == d
    decreases |r|
  {
    if |r| > 0 {
      var n, b := |r| - 1, r[|r| - 1];
      assert InRange(d[..n], r[..n]);
      UnrankRank(d[..n], r[..n]);
      var q := Rank(d[..n], r[..n]);
      var x := d[n];
      assert Rank(d, r) == q * b + x;
      assert Product(r) == Product(r[..n]) * b;
      Below(q, x, Product(r[..n]), b);
      DivMod(q * b + x, b, q, x);
      assert Unrank(Rank(d, r), r) == Unrank(q, r[..n]) + [x];
      assert d == d[..n] + [x];
    }
  }

  /** One step of `increment` moves from the k-th combination to the next
      one, and the carry leaves the first position exactly after the last
      combination. */
  lemma {:induction false} IncrementUnrank(k: nat, r: seq<nat>)
    requires k < Product(r)
    ensures Incremented(Unrank(k, r), r) == (Unrank(k + 1, r), k + 1 == Product(r))
    decreases |r|
  {
    if |r| > 0 {
      var n, b := |r| - 1, r[|r| - 1];
      UnrankLast(k, r);
      var q, m := k / b, k % b;
      var d := Unrank(k, r);
      assert d[..n] == Unrank(q, r[..n]) && d[n] == m;
      assert Product(r) == Product(r[..n]) * b;
      Below(q, m, Product(r[..n]), b);
      if m + 1 >= b {
        MulStep(q, b);
        DivMod(k + 1, b, q + 1, 0);
        IncrementUnrank(q, r[..n]);
        assert Unrank(k + 1, r) == Unrank(q + 1, r[..n]) + [0];
      } else {
        DivMod(k + 1, b, q, m + 1);
        assert Unrank(k + 1, r) == Unrank(q, r[..n]) + [m + 1];
      }
    }
  }

  // ---------------------------------------------------------------------
  // Building one combination from the digits.
  // ---------------------------------------------------------------------

  /** The result of the body of `__next__` for a given `index`. */
  datatype Selection = Picked(title: string, conf: Conf) | DupKey(key: string) | NoEntry(position: nat)

  function Keys(conf: Conf): (ks: seq<string>)
    ensures |ks| == |conf| && forall i :: 0 <= i < |conf| ==> ks[i] == conf[i].0
  {
    seq(|conf|, i requires 0 <= i < |conf| => conf[i].0)
  }

  /** The first `n` steps of the title/conf loop of `__next__`. */
  function SelectUpTo(config: seq<ParamSet>, d: seq<nat>, n: nat): Selection
    requires |d| == |config| && n <= |config|
  {
    if n == 0 then Picked("", [])
    else
      match SelectUpTo(config, d, n - 1)
      case Picked(title, conf) =>
        var i := n - 1;
        if d[i] >= |config[i]| then NoEntry(i)
        else
          var key := config[i][d[i]].0;
          if key in Keys(conf) then DupKey(key)
          else Picked((if i != 0 then title + "_" else title) + key, conf + [config[i][d[i]]])
      case other => other
  }

  function Select(config: seq<ParamSet>, d: seq<nat>): Selection
    requires |d| == |config|
  {
    SelectUpTo(config, d, |config|)
  }

  /** The chosen entries of the first `n` sets. */
  function Chosen(config: seq<ParamSet>, d: seq<nat>, n: nat): (c: Conf)
    requires |d| == |config| && n <= |config|
    requires forall i :: 0 <= i < n ==> d[i] < |config[i]|
  {
    seq(n, i requires 0 <= i < n => config[i][d[i]])
  }

  /** `'_'.join(keys)`. */
  function JoinTitle(keys: seq<string>): string
  {
    if |keys| == 0 then "" else keys[0] + Underscored(keys[1..])
  }

  function Underscored(keys: seq<string>): string
  {
    if |keys| == 0 then "" else "_" + keys[0] + Underscored(keys[1..])
  }

  predicate NoDuplicates(ks: seq<string>)
  {
    forall i, j :: 0 <= i < j < |ks| ==> ks[i] != ks[j]
  }

  lemma {:induction false} UnderscoredSnoc(ks: seq<string>, k: string)
    ensures Underscored(ks + [k]) == Underscored(ks) + "_" + k
  {
    if |ks| > 0 {
      assert (ks + [k])[1..] == ks[1..] + [k];
      UnderscoredSnoc(ks[1..], k);
    } else {
      assert ([] + [k])[1..] == [];
    }
  }

  lemma JoinTitleSnoc(ks: seq<string>, k: string)
    ensures JoinTitle(ks + [k]) == if |ks| == 0 then k else JoinTitle(ks) + "_" + k
  {
    if |ks| > 0 {
      assert (ks + [k])[1..] == ks[1..] + [k];
      UnderscoredSnoc(ks[1..], k);
    } else {
      assert ([] + [k])[1..] == [];
    }
  }

  /** An error stops the loop: later sets do not change it. */
  lemma {:induction false} SelectSticks(config: seq<ParamSet>, d: seq<nat>, j: nat, n: nat)
    requires |d| == |config| && j <= n <= |config|
    requires !SelectUpTo(config, d, j).Picked?
    ensures SelectUpTo(config, d, n) == SelectUpTo(config, d, j)
    decreases n - j
  {
    if j < n {
      SelectSticks(config, d, j + 1, n);
    }
  }

  /** The loop over the first `n` sets succeeds exactly when every digit is a
      valid choice and no chosen key repeats; it then yields the chosen keys
      joined by `_` as the title and the chosen entries, in set order, as conf. */
  lemma {:induction false} SelectUpToPicked(config: seq<ParamSet>, d: seq<nat>, n: nat)
    requires |d| == |config| && n <= |config|
    ensures SelectUpTo(config, d, n).Picked? <==>
              (forall i :: 0 <= i < n ==> d[i] < |config[i]|) && NoDuplicates(Keys(Chosen(config, d, n)))
    ensures SelectUpTo(config, d, n).Picked? ==>
              SelectUpTo(config, d, n).title == JoinTitle(Keys(Chosen(config, d, n))) &&
              SelectUpTo(config, d, n).conf == Chosen(config, d, n)
  {
    if n > 0 {
      var i := n - 1;
      SelectUpToPicked(config, d, i);
      if (forall j :: 0 <= j < n ==> d[j] < |config[j]|) {
        var key := config[i][d[i]].0;
        ChosenSnoc(config, d, n);
        NoDuplicatesSnoc(Keys(Chosen(config, d, i)), key);
        if SelectUpTo(config, d, i).Picked? {
          JoinTitleSnoc(Keys(Chosen(config, d, i)), key);
        }
      }
    }
  }

  lemma ChosenSnoc(config: seq<ParamSet>, d: seq<nat>, n: nat)
    requires |d| == |config| && 0 < n <= |config|
    requires forall i :: 0 <= i < n ==> d[i] < |config[i]|
    ensures Chosen(config, d, n) == Chosen(config, d, n - 1) + [config[n - 1][d[n - 1]]]
    ensures Keys(Chosen(config, d, n)) == Keys(Chosen(config, d, n - 1)) + [config[n - 1][d[n - 1]].0]
  {
    assert Chosen(config, d, n) == Chosen(config, d, n - 1) + [config[n - 1][d[n - 1]]];
  }

  /** A key list with one more key has no duplicates exactly when the
      shorter one has none and does not hold the new key. */
  lemma NoDuplicatesSnoc(ks: seq<string>, k: string)
    ensures NoDuplicates(ks + [k]) <==> NoDuplicates(ks) && k !in ks
  {
    var ks' := ks + [k];
    if NoDuplicates(ks') {
      assert forall i, j :: 0 <= i < j < |ks| ==> ks[i] == ks'[i] && ks[j] == ks'[j];
      forall i | 0 <= i < |ks|
        ensures ks[i] != k
      {
        assert ks'[i] == ks[i] && ks'[|ks|] == k;
      }
    }
  }

  /** `Select` succeeds exactly for in-range digits whose chosen keys are
      distinct, and then builds the `_`-joined title and the merged conf. */
  lemma SelectPicked(config: seq<ParamSet>, d: seq<nat>)
    requires |d| == |config|
    ensures Select(config, d).Picked? <==>
              InRange(d, Sizes(config)) && NoDuplicates(Keys(Chosen(config, d, |config|)))
    ensures Select(config, d).Picked? ==>
              Select(config, d).title == JoinTitle(Keys(Chosen(config, d, |config|))) &&
              Select(config, d).conf == Chosen(config, d, |config|)
  {
    SelectUpToPicked(config, d, |config|);
  }

  /** A duplicate-key error names a key that two different sets chose. */
  lemma {:induction false} SelectDupKey(config: seq<ParamSet>, d: seq<nat>, n: nat)
    requires |d| == |config| && n <= |config|
    requires SelectUpTo(config, d, n).DupKey?
    ensures exists i, j :: 0 <= i < j < n && d[i] < |config[i]| && d[j] < |config[j]| &&
              config[i][d[i]].0 == SelectUpTo(config, d, n).key == config[j][d[j]].0
  {
    var prev := SelectUpTo(config, d, n - 1);
    if prev.DupKey? {
      SelectDupKey(config, d, n - 1);
    } else {
      var i := n - 1;
      SelectUpToPicked(config, d, i);
      var key := config[i][d[i]].0;
      var j :| 0 <= j < |prev.conf| && Keys(prev.conf)[j] == key;
      assert prev.conf[j] == config[j][d[j]];
    }
  }

  // ---------------------------------------------------------------------
  // The iterator object.
  // ---------------------------------------------------------------------

  /** What one call of `__next__` does: return a pair, raise StopIteration,
      or raise an error. */
  datatype Step = Yield(title: string, conf: Conf) | Stop | Raise(error: Exception)

  function StepOf(s: Selection): Step
  {
    match s
    case Picked(title, conf) => Yield(title, conf)
    case DupKey(key) => Raise(DuplicatedKey(key))
    case NoEntry(_) => Raise(IndexError)
  }

  /** What the iterator hands out once it has returned k pairs: nothing
      once all of a non-zero number of combinations were returned, otherwise
      the k-th combination or the error building it raises. */
  function StepAt(config: seq<ParamSet>, k: nat): Step
  {
    var p := Product(Sizes(config));
    if p > 0 && k == p then Stop else StepOf(Select(config, Unrank(k, Sizes(config))))
  }

  class ConfigureIterable {
    const config: seq<ParamSet>
    const length: nat
    /** The size of every parameter set. */
    const numIndex: seq<nat>
    /** The current digits, updated in place by `Increment`. */
    const index: array<nat>
    var finished: bool
    /** How many pairs have been returned so far. */
    ghost var yielded: nat

    /** Between calls the digits are those of the `yielded`-th combination,
        and `finished` is set exactly when all combinations were returned. */
    ghost predicate Valid()
      reads this, index
    {
      length == |config| && |numIndex| == length && index.Length == length &&
      numIndex == Sizes(config) &&
      yielded <= Product(numIndex) &&
      (finished <==> Product(numIndex) > 0 && yielded == Product(numIndex)) &&
      index[..] == Unrank(yielded, numIndex)
    }

    constructor (config: seq<ParamSet>)
      ensures Valid() && fresh(index)
      ensures this.config == config && yielded == 0 && !finished
    {
      this.config := config;
      length := |config|;
      numIndex := Sizes(config);
      index := new nat[|config|](_ => 0);
      finished := false;
      yielded := 0;
      new;
      UnrankZero(Sizes(config));
      ProductPositive(Sizes(config));
    }

    /** `__next__`: StopIteration once finished; otherwise the pair of the
        current digits (or its error, which leaves the state as it was), and
        on success the counter moves to the next combination. */
    method Next() returns (r: Step)
      requires Valid()
      modifies this, index
      ensures Valid()
      ensures r == StepAt(config, old(yielded))
      ensures yielded == old(yielded) + (if r.Yield? then 1 else 0)
    {
      if finished {
        return Stop;
      }
      r := Current();
      if r.Yield? {
        MoveOn();
      }
    }

    /** The tail of `__next__` once the current digits gave a pair: advance
        the digits with `increment` and count the pair. */
    method MoveOn()
      requires Valid() && !finished && Select(config, index[..]).Picked?
      modifies this, index
      ensures Valid() && yielded == old(yielded) + 1
    {
      ghost var k := yielded;
      SelectPicked(config, index[..]);
      ProductPositive(numIndex);
      assert k < Product(numIndex);
      IncrementUnrank(k, numIndex);
      ghost var next := Incremented(index[..], numIndex);
      assert next == (Unrank(k + 1, numIndex), k + 1 == Product(numIndex));
      Increment();
      assert index[..] == next.0 && finished == next.1;
      yielded := k + 1;
      assert index[..] == Unrank(yielded, numIndex);
    }

    /** The title/conf loop of `__next__`: the keys chosen by the current
        digits joined by `_`, and their entries merged into one conf. */
    method Current() returns (r: Step)
      requires Valid()
      ensures r == StepOf(Select(config, index[..]))
    {
      var conf: Conf := [];
      var title := "";
      for i := 0 to length
        invariant SelectUpTo(config, index[..], i) == Picked(title, conf)
      {
        if i != 0 {
          title := title + "_";
        }
        if index[i] >= |config[i]| {
          SelectSticks(config, index[..], i + 1, length);
          return Raise(IndexError);
        }
        var sub := config[i][index[i]];
        title := title + sub.0;
        if sub.0 in Keys(conf) {
          SelectSticks(config, index[..], i + 1, length);
          return Raise(DuplicatedKey(sub.0));
        }
        conf := conf + [sub];
      }
      return Yield(title, conf);
    }

    /** `increment`: add one to the last digit, carrying leftwards; a carry
        out of the first position sets `finished`. */
    method Increment()
      requires index.Length == length == |numIndex|
      modifies this`finished, index
      ensures index[..] == Incremented(old(index[..]), numIndex).0
      ensures finished == (old(finished) || Incremented(old(index[..]), numIndex).1)
    {
      ghost var d := index[..];
      assert d[..length] == d && numIndex[..length] == numIndex;
      assert Incremented(d, numIndex).0 + Zeros(0) == Incremented(d, numIndex).0;
      var carry := true;
      var i := length;
      while i > 0
        invariant 0 <= i <= length
        invariant carry && finished == old(finished)
        invariant forall j :: 0 <= j < i ==> index[j] == d[j]
        invariant forall j :: i <= j < length ==> index[j] == 0
        invariant Incremented(d, numIndex) ==
                    (Incremented(d[..i], numIndex[..i]).0 + Zeros(length - i), Incremented(d[..i], numIndex[..i]).1)
      {
        i := i - 1;
        if carry {
          index[i] := index[i] + 1;
          carry := false;
        }
        if index[i] >= numIndex[i] {
          index[i] := 0;
          carry := true;
          IncrementedCarry(d, numIndex, i);
          ghost var p := Incremented(d[..i], numIndex[..i]).0;
          assert Zeros(length - i) == [0] + Zeros(length - i - 1);
          assert p + [0] + Zeros(length - i - 1) == p + Zeros(length - i);
        } else {
          IncrementedStop(d, numIndex, i);
          assert index[..] == d[..i] + [d[i] + 1] + Zeros(length - i - 1);
          assert index[..] == Incremented(d, numIndex).0 && !Incremented(d, numIndex).1;
          break;
        }
      }
      if carry {
        assert i == 0 && d[..0] == [] && numIndex[..0] == [];
        assert index[..] == Zeros(length);
        finished := true;
      }
    }
  }

  /** A carry at position `i` zeroes it and passes on to the positions before. */
  lemma IncrementedCarry(d: seq<nat>, r: seq<nat>, i: nat)
    requires |d| == |r| && i < |d| && d[i] + 1 >= r[i]
    ensures Incremented(d[..i + 1], r[..i + 1]) ==
              (Incremented(d[..i], r[..i]).0 + [0], Incremented(d[..i], r[..i]).1)
  {
    assert d[..i + 1][..i] == d[..i] && r[..i + 1][..i] == r[..i];
  }

  /** Without a carry at position `i`, the positions before it stay as they are. */
  lemma IncrementedStop(d: seq<nat>, r: seq<nat>, i: nat)
    requires |d| == |r| && i < |d| && d[i] + 1 < r[i]
    ensures Incremented(d[..i + 1], r[..i + 1]) == (d[..i] + [d[i] + 1], false)
  {
    assert d[..i + 1][..i] == d[..i] && r[..i + 1][..i] == r[..i];
  }
}
