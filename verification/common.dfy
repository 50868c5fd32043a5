/**
 * Shared vocabulary of the ranking pipeline: nullable values, row ids,
 * injected random draws, JavaScript truthiness of nullable numbers and the
 * "--" fallback used wherever a ranking or a score is displayed.
 */
module Common {

  /** A nullable value (`T | null` in the TypeScript code, NULL in SQL). */
  datatype Option<+T> = None | Some(value: T) {
    function GetOr(default: T): T {
      if Some? then value else default
    }
  }

  /** Row identifiers (UUID strings in the store). */
  type Id = string

  /** One value of `Math.random()`: a real number in [0, 1). */
  type Unit = u: real | 0.0 <= u < 1.0

  /** Four independent draws, enough for one set of scores. */
  datatype Draw4 = Draw4(a: Unit, b: Unit, c: Unit, d: Unit)

  function Max(x: int, y: int): int {
    if x < y then y else x
  }

  /** `Math.floor(u * span) + offset`: a uniform integer in [offset, offset + span). */
  function Scaled(u: Unit, span: nat, offset: int): (r: int)
    requires span > 0
    ensures offset <= r < offset + span
  {
    var x := u * span as real;
    ScaledBelowSpan(u, span as real);
    assert x.Floor as real <= x;
    x.Floor + offset
  }

  /** A draw in [0, 1) scaled by a positive span lies in [0, span). */
  lemma ScaledBelowSpan(u: Unit, s: real)
    requires s > 0.0
    ensures 0.0 <= u * s < s
  {
    assert (1.0 - u) * s > 0.0;
  }

  /**
   * PHP `rand(lo, hi)`: a uniform integer in [lo, hi], both ends included.
   * The generator behind it is abstracted as one draw `u`.
   */
  function PhpRand(lo: int, hi: int, u: Unit): (r: int)
    requires lo <= hi
    ensures lo <= r <= hi
  {
    Scaled(u, hi - lo + 1, lo)
  }

  /** JavaScript truthiness of a `number | null`: null and 0 are falsy. */
  predicate Truthy(x: Option<int>) {
    x.Some? && x.value != 0
  }

  /** A table cell that shows a number, or the `--` placeholder. */
  datatype Cell = Num(n: int) | Dashes

  /** `x || '--'` on a nullable number: the number when it is truthy, `--` otherwise. */
  function OrDashes(x: Option<int>): (c: Cell)
    ensures c.Dashes? <==> !Truthy(x)
    ensures c.Num? ==> x == Some(c.n) && c.n != 0
  {
    if Truthy(x) then Num(x.value) else Dashes
  }

  /** `name || fallback` on a nullable string: null and the empty string are falsy. */
  function NameOr(name: Option<string>, fallback: string): (r: string)
    ensures name.Some? && name.value != "" ==> r == name.value
    ensures name.None? || name.value == "" ==> r == fallback
  {
    if name.Some? && name.value != "" then name.value else fallback
  }

  /**
   * The mail transport (SMTP) as seen by the senders: the messages it has
   * accepted, in order. Whether a send succeeds is an input.
   */
  class Outbox<M> {
    var sent: seq<M>

    constructor ()
      ensures sent == []
    {
      sent := [];
    }

    /** One `send`: an accepted message is appended, a refused one leaves the outbox as it was. */
    method Send(m: M, accepted: bool) returns (ok: bool)
      modifies this
      ensures ok == accepted
      ensures sent == if accepted then old(sent) + [m] else old(sent)
    {
      ok := accepted;
      if accepted {
        sent := sent + [m];
      }
    }
  }

  /** No element occurs twice. */
  predicate Distinct<T(==)>(s: seq<T>) {
    forall i, j :: 0 <= i < j < |s| ==> s[i] != s[j]
  }

  /** Strictly increasing, hence also free of duplicates. */
  predicate StrictlyIncreasing(s: seq<int>) {
    forall i, j :: 0 <= i < j < |s| ==> s[i] < s[j]
  }

  /**
   * Inserts `x` at its place in an ascending sequence that does not hold it.
   */
  function InsertSorted(r: seq<int>, x: int): (t: seq<int>)
    requires StrictlyIncreasing(r) && x !in r
    ensures StrictlyIncreasing(t)
    ensures forall y :: y in t <==> y in r || y == x
    ensures |t| == |r| + 1
  {
    if r == [] then [x]
    else if x < r[0] then [x] + r
    else
      var tail := InsertSorted(r[1..], x);
      assert forall k :: 0 <= k < |tail| ==> r[0] < tail[k] by {
        forall k | 0 <= k < |tail| ensures r[0] < tail[k] {
          assert tail[k] in tail;
          if tail[k] != x {
            var j :| 0 <= j < |r[1..]| && r[1..][j] == tail[k];
            assert r[j + 1] == tail[k];
          }
        }
      }
      [r[0]] + tail
  }

  /**
   * `Array.from(set).sort()`: the distinct values, in ascending order.
   * A JavaScript `Set` enumerates its values in insertion order without
   * duplicates, which is what `s` stands for here.
   */
  method SortAscending(s: seq<int>) returns (r: seq<int>)
    requires Distinct(s)
    ensures StrictlyIncreasing(r)
    ensures forall x :: x in r <==> x in s
    ensures |r| == |s|
  {
    r := [];
    for i := 0 to |s|
      invariant StrictlyIncreasing(r)
      invariant forall x :: x in r <==> x in s[..i]
      invariant |r| == i
    {
      assert s[i] !in s[..i];
      r := InsertSorted(r, s[i]);
      assert s[..i + 1] == s[..i] + [s[i]];
    }
    assert s[..|s|] == s;
  }

  /** Appending twice is appending the concatenation. */
  lemma ConcatAssoc<T>(a: seq<T>, b: seq<T>, c: seq<T>)
    ensures a + b + c == a + (b + c)
  {
  }
}
