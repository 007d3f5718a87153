/** JSON values as the analysers see them once a document is parsed, and
    the two library operations the scripts apply to them: `statistics.mean`
    and `float()`. */
module Values {
  import opened Wrappers
  import Seqs

  /** A JSON value: a number (Python int, float or bool), `null`, or any
      other value (text, list, object), which Python finds truthy when it is
      non-empty and falsy when it is empty. */
  datatype Value = Num(x: real) | Null | Other(truthy: bool)

  /** Python truthiness: zero, `None` and empty values are false. */
  predicate Truthy(v: Value) {
    match v
    case Num(x) => x != 0.0
    case Null => false
    case Other(t) => t
  }

  /** Truthiness of a number that may be `None`. */
  predicate TruthyNumber(n: Option<real>) {
    n.Some? && n.value != 0.0
  }

  predicate AllNumeric(vs: seq<Value>) {
    forall i :: 0 <= i < |vs| ==> vs[i].Num?
  }

  /** The sum of the numeric entries of `vs`. */
  function Total(vs: seq<Value>): real {
    if |vs| == 0 then 0.0
    else (if vs[0].Num? then vs[0].x else 0.0) + Total(vs[1..])
  }

  /** `statistics.mean`: the arithmetic mean of a non-empty list of numbers.
      None stands for the cases where `mean` raises: an empty list, or an
      entry that is not a number (`None`, text, ...). */
  function Mean(vs: seq<Value>): (m: Option<real>)
    ensures m.Some? <==> |vs| > 0 && AllNumeric(vs)
    ensures m.Some? ==> m.value * (|vs| as real) == Total(vs)
  {
    if |vs| > 0 && AllNumeric(vs) then Some(Total(vs) / (|vs| as real)) else None
  }

  lemma {:induction false} TotalAppend(a: seq<Value>, b: seq<Value>)
    ensures Total(a + b) == Total(a) + Total(b)
    decreases |a|
  {
    if |a| == 0 {
      assert a + b == b;
    } else {
      assert (a + b)[1..] == a[1..] + b;
      TotalAppend(a[1..], b);
    }
  }

  /** The sum depends only on the multiset of entries. */
  lemma {:induction false} TotalPermutation(a: seq<Value>, b: seq<Value>)
    requires multiset(a) == multiset(b)
    ensures Total(a) == Total(b)
    decreases |a|
  {
    if |a| == 0 {
      assert |b| == |multiset(b)| == 0;
    } else {
      var j := Seqs.PermutationTail(a, b);
      TotalPermutation(a[1..], b[..j] + b[j+1..]);
      assert b == b[..j] + ([a[0]] + b[j+1..]);
      TotalAppend(b[..j], [a[0]] + b[j+1..]);
      TotalAppend([a[0]], b[j+1..]);
      TotalAppend(b[..j], b[j+1..]);
      assert a == [a[0]] + a[1..];
      TotalAppend([a[0]], a[1..]);
    }
  }

  /** The mean is order-independent: permuting the quotes does not change it. */
  lemma MeanPermutation(a: seq<Value>, b: seq<Value>)
    requires multiset(a) == multiset(b)
    ensures Mean(a) == Mean(b)
  {
    assert |a| == |multiset(a)| == |multiset(b)| == |b|;
    if AllNumeric(a) {
      forall i | 0 <= i < |b| ensures b[i].Num? {
        assert b[i] in multiset(a);
      }
    }
    if AllNumeric(b) {
      forall i | 0 <= i < |a| ensures a[i].Num? {
        assert a[i] in multiset(b);
      }
    }
    TotalPermutation(a, b);
  }

  lemma {:induction false} TotalBounds(vs: seq<Value>, lo: real, hi: real)
    requires AllNumeric(vs)
    requires forall i :: 0 <= i < |vs| ==> lo <= vs[i].x <= hi
    ensures lo * (|vs| as real) <= Total(vs) <= hi * (|vs| as real)
    decreases |vs|
  {
    if |vs| > 0 {
      TotalBounds(vs[1..], lo, hi);
    }
  }

  /** The mean lies between the smallest and the largest quote. */
  lemma MeanWithinBounds(vs: seq<Value>, lo: real, hi: real)
    requires Mean(vs).Some?
    requires forall i :: 0 <= i < |vs| ==> lo <= vs[i].x <= hi
    ensures lo <= Mean(vs).value <= hi
  {
    TotalBounds(vs, lo, hi);
  }

  /** A provider field that the scripts pass to `float()`: absent, a number
      or numeric text (held as the value `float()` yields), or something
      `float()` rejects (`null`, non-numeric text). */
  datatype RawNumber = Absent | Parsed(x: real) | Unparseable

  /** The exception `float()` raises (ValueError or TypeError). */
  datatype NumberError = NotANumber

  /** `float(field.get(key, default))`; `default` None stands for a plain
      `field.get(key)`, where an absent key yields `float(None)`, which raises. */
  function ToFloat(n: RawNumber, default: Option<real>): (r: Result<real, NumberError>)
    ensures r.Failure? <==> n.Unparseable? || (n.Absent? && default.None?)
    ensures n.Parsed? ==> r == Success(n.x)
    ensures n.Absent? && default.Some? ==> r == Success(default.value)
  {
    match n
    case Parsed(x) => Success(x)
    case Absent => if default.Some? then Success(default.value) else Failure(NotANumber)
    case Unparseable => Failure(NotANumber)
  }
}
