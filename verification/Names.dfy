/** The identifiers the broker mints: VM ids from a counter, execution ids from repository, run and job. */
module Names {

  function Digit(d: nat): char
    requires d < 10
  {
    '0' + d as char
  }

  function Digits(n: nat): (s: string)
    ensures s != "" && forall i :: 0 <= i < |s| ==> '0' <= s[i] <= '9'
  {
    if n < 10 then [Digit(n)] else Digits(n / 10) + [Digit(n % 10)]
  }

  function Decimal(n: int): string {
    if n < 0 then "-" + Digits(-n) else Digits(n)
  }

  lemma {:induction false} DigitsInjective(m: nat, n: nat)
    requires Digits(m) == Digits(n)
    ensures m == n
  {
    var (s, t) := (Digits(m), Digits(n));
    assert (|s| == 1 <==> m < 10) && (|t| == 1 <==> n < 10);
    assert s[|s| - 1] == Digit(m % 10) && t[|t| - 1] == Digit(n % 10);
    if m >= 10 && n >= 10 {
      assert Digits(m / 10) == s[..|s| - 1] && Digits(n / 10) == t[..|t| - 1];
      DigitsInjective(m / 10, n / 10);
    }
  }

  lemma DecimalInjective(m: int, n: int)
    requires Decimal(m) == Decimal(n)
    ensures m == n
  {
    assert Decimal(m)[0] == '-' <==> m < 0;
    assert Decimal(n)[0] == '-' <==> n < 0;
    if m < 0 && n < 0 {
      assert Decimal(m)[1..] == Digits(-m) && Decimal(n)[1..] == Digits(-n);
      DigitsInjective(-m, -n);
    } else if m >= 0 && n >= 0 {
      DigitsInjective(m, n);
    }
  }

  /** What follows the last separator is read back from a joined string. */
  lemma LastPart(a: string, x: string, b: string, y: string, sep: char)
    requires sep !in x && sep !in y && a + [sep] + x == b + [sep] + y
    ensures a == b && x == y
  {
    var s := a + [sep] + x;
    assert forall i :: |a| < i < |s| ==> s[i] == x[i - |a| - 1];
    assert forall i :: |b| < i < |s| ==> s[i] == y[i - |b| - 1];
    assert s[|a|] == sep && s[|b|] == sep;
    assert a == s[..|a|] && b == s[..|b|];
    assert x == s[|a| + 1..] && y == s[|b| + 1..];
  }

  function NextID(runToken: string, next: nat): string {
    runToken + "-" + Decimal(next)
  }

  function ExecutionID(repo: string, runID: int, jobID: int): string {
    repo + "#" + Decimal(runID) + "#" + Decimal(jobID)
  }

  /** Two ids from one counter differ, even when the run token was changed in between. */
  lemma NextIDsDiffer(token1: string, n1: nat, token2: string, n2: nat)
    requires n1 != n2
    ensures NextID(token1, n1) != NextID(token2, n2)
  {
    if NextID(token1, n1) == NextID(token2, n2) {
      LastPart(token1, Digits(n1), token2, Digits(n2), '-');
      DigitsInjective(n1, n2);
    }
  }

  /** The execution id names exactly one repository, run and job, whatever characters the repository has. */
  lemma ExecutionIDIdentifies(repo1: string, run1: int, job1: int, repo2: string, run2: int, job2: int)
    ensures ExecutionID(repo1, run1, job1) == ExecutionID(repo2, run2, job2)
       <==> repo1 == repo2 && run1 == run2 && job1 == job2
  {
    if ExecutionID(repo1, run1, job1) == ExecutionID(repo2, run2, job2) {
      LastPart(repo1 + "#" + Decimal(run1), Decimal(job1), repo2 + "#" + Decimal(run2), Decimal(job2), '#');
      LastPart(repo1, Decimal(run1), repo2, Decimal(run2), '#');
      DecimalInjective(run1, run2);
      DecimalInjective(job1, job2);
    }
  }
}
