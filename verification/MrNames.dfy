/**
 Names of the files a job writes. That no two of them collide is what lets
 every task attempt be an overwrite of its own files only.
 */
module MrNames {

  function Digit(d: nat): char
    requires d < 10
  {
    ['0', '1', '2', '3', '4', '5', '6', '7', '8', '9'][d]
  }

  /** strconv.Itoa of a task number. */
  function Itoa(n: nat): string {
    if n < 10 then [Digit(n)] else Itoa(n / 10) + [Digit(n % 10)]
  }

  function ReduceName(job: string, mapTask: nat, reduceTask: nat): string {
    "mrtmp." + job + "-" + Itoa(mapTask) + "-" + Itoa(reduceTask)
  }

  function MergeName(job: string, reduceTask: nat): string {
    "mrtmp." + job + "-res-" + Itoa(reduceTask)
  }

  function OutName(job: string): string {
    "mrtmp." + job
  }

  predicate IsDigit(c: char) {
    '0' <= c <= '9'
  }

  lemma {:induction false} ItoaDigits(n: nat)
    ensures Itoa(n) != [] && forall i :: 0 <= i < |Itoa(n)| ==> IsDigit(Itoa(n)[i])
  {
    if n >= 10 {
      ItoaDigits(n / 10);
    }
  }

  /** The number a string of digits stands for. */
  function NumberOf(s: string): int {
    if s == [] then 0 else 10 * NumberOf(s[..|s| - 1]) + (s[|s| - 1] as int - '0' as int)
  }

  /** Decimal notation: digits, and no zero in front. */
  predicate Numeral(s: string) {
    && s != [] && (forall i :: 0 <= i < |s| ==> IsDigit(s[i]))
    && (|s| > 1 ==> s[0] != '0')
  }

  /** Itoa writes the numeral of its number. */
  lemma {:induction false} ItoaReads(n: nat)
    ensures NumberOf(Itoa(n)) == n && Numeral(Itoa(n)) && (n > 0 ==> Itoa(n)[0] != '0')
  {
    ItoaDigits(n);
    if n >= 10 {
      ItoaReads(n / 10);
      assert Itoa(n)[..|Itoa(n)| - 1] == Itoa(n / 10);
    } else {
      assert [Digit(n)][..0] == [];
    }
  }

  /** And every numeral is written by it. */
  lemma {:induction false} NumeralIsItoa(s: string)
    requires Numeral(s)
    ensures NumberOf(s) >= 0 && Itoa(NumberOf(s)) == s && (s[0] != '0' ==> NumberOf(s) > 0)
  {
    hide Digit;
    var last := |s| - 1;
    DigitOf(s[last]);
    if last == 0 {
      assert s[..0] == [];
    } else {
      NumeralIsItoa(s[..last]);
      LastDigit(NumberOf(s[..last]), s[last] as int - '0' as int);
      assert s == s[..last] + [s[last]];
    }
  }

  lemma DigitOf(c: char)
    requires IsDigit(c)
    ensures 0 <= c as int - '0' as int < 10 && Digit(c as int - '0' as int) == c
  {
  }

  lemma LastDigit(n: nat, d: nat)
    requires n > 0 && d < 10
    ensures (10 * n + d) / 10 == n && (10 * n + d) % 10 == d && Itoa(10 * n + d) == Itoa(n) + [Digit(d)]
  {
  }

  lemma ItoaInjective(m: nat, n: nat)
    requires Itoa(m) == Itoa(n)
    ensures m == n
  {
    ItoaReads(m);
    ItoaReads(n);
  }

  /** How the files of a job are named, numerals being what they are. */
  lemma NamesSpelled(job: string, a: string, b: string)
    requires Numeral(a) && Numeral(b)
    ensures NumberOf(a) >= 0 && NumberOf(b) >= 0
    ensures ReduceName(job, NumberOf(a), NumberOf(b)) == "mrtmp." + job + "-" + a + "-" + b
    ensures MergeName(job, NumberOf(b)) == "mrtmp." + job + "-res-" + b
    ensures OutName(job) == "mrtmp." + job
  {
    NumeralIsItoa(a);
    NumeralIsItoa(b);
  }

  /** Two strings that start with digits up to a dash share digits and rest. */
  lemma SplitAtDash(a: string, x: string, b: string, y: string)
    requires a + "-" + x == b + "-" + y
    requires forall i :: 0 <= i < |a| ==> a[i] != '-'
    requires forall i :: 0 <= i < |b| ==> b[i] != '-'
    ensures a == b && x == y
  {
    var s := a + "-" + x;
    assert s[|a|] == '-' && s[|b|] == '-';
    assert forall i :: 0 <= i < |a| ==> s[i] == a[i];
    assert forall i :: 0 <= i < |b| ==> s[i] == b[i];
    assert a == s[..|a|] && b == s[..|b|];
    assert x == s[|a| + 1..] && y == s[|b| + 1..];
  }

  /** What follows the job prefix decides the name. */
  lemma SameTail(job: string, x: string, y: string)
    requires "mrtmp." + job + x == "mrtmp." + job + y
    ensures x == y
  {
    var p := "mrtmp." + job;
    assert x == (p + x)[|p|..] && y == (p + y)[|p|..];
  }

  lemma ReduceNameInjective(job: string, m: nat, r: nat, m': nat, r': nat)
    requires ReduceName(job, m, r) == ReduceName(job, m', r')
    ensures m == m' && r == r'
  {
    hide Itoa;
    var x, y := Itoa(m) + "-" + Itoa(r), Itoa(m') + "-" + Itoa(r');
    assert ReduceName(job, m, r) == "mrtmp." + job + ("-" + x);
    assert ReduceName(job, m', r') == "mrtmp." + job + ("-" + y);
    SameTail(job, "-" + x, "-" + y);
    assert x == ("-" + x)[1..] && y == ("-" + y)[1..];
    ItoaDigits(m);
    ItoaDigits(m');
    SplitAtDash(Itoa(m), Itoa(r), Itoa(m'), Itoa(r'));
    ItoaInjective(m, m');
    ItoaInjective(r, r');
  }

  lemma MergeNameInjective(job: string, r: nat, r': nat)
    requires MergeName(job, r) == MergeName(job, r')
    ensures r == r'
  {
    hide Itoa;
    assert MergeName(job, r) == "mrtmp." + job + ("-res-" + Itoa(r));
    assert MergeName(job, r') == "mrtmp." + job + ("-res-" + Itoa(r'));
    SameTail(job, "-res-" + Itoa(r), "-res-" + Itoa(r'));
    assert Itoa(r) == ("-res-" + Itoa(r))[5..] && Itoa(r') == ("-res-" + Itoa(r'))[5..];
    ItoaInjective(r, r');
  }

  /** Intermediate files, reducer outputs and the final output never share a name. */
  lemma NamesDistinct(job: string, m: nat, r: nat, q: nat)
    ensures ReduceName(job, m, r) != MergeName(job, q)
    ensures ReduceName(job, m, r) != OutName(job) && MergeName(job, q) != OutName(job)
  {
    hide Itoa;
    var p := "mrtmp." + job + "-";
    ItoaDigits(m);
    assert ReduceName(job, m, r) == p + (Itoa(m) + "-" + Itoa(r));
    assert MergeName(job, q) == p + ("res-" + Itoa(q));
    assert ReduceName(job, m, r)[|p|] == Itoa(m)[0];
    assert MergeName(job, q)[|p|] == 'r';
    assert IsDigit(Itoa(m)[0]);
    assert |OutName(job)| < |p|;
  }
}
