/**
 * leaning-go/first-book/runner.go: check the command line, parse the
 * upper bound, then print "baz", "foo" or "bar" for each i in 0..limite
 * that 3 or 5 divides. The printed lines are the method's result.
 */
module Runner {
  import opened Wrappers
  import opened Strconv

  const Usage: string := "Usage: go run runnner.go <limite_haute>"
  const NotAnInteger: string := "L'argument doit être un nombre entier."

  /** The `switch`: the first case that matches wins, so a multiple of 15 is only "baz". */
  function Classify(i: nat): (word: Option<string>)
    ensures word.Some? <==> i % 3 == 0 || i % 5 == 0
    ensures word == Some("foo") <==> i % 3 == 0 && i % 5 != 0
    ensures word == Some("bar") <==> i % 5 == 0 && i % 3 != 0
  {
    if i % 3 == 0 && i % 5 == 0 then Some("baz")
    else if i % 3 == 0 then Some("foo")
    else if i % 5 == 0 then Some("bar")
    else None
  }

  function LineFor(i: nat): seq<string> {
    match Classify(i)
    case None => []
    case Some(word) => [word]
  }

  /** The lines printed for i = 0, 1, ..., n, in that order. */
  function Lines(n: int): seq<string>
    decreases n + 1
  {
    if n < 0 then [] else Lines(n - 1) + LineFor(n)
  }

  /** What the program prints for the command line `args` (`os.Args`, program name included). */
  method Run(args: seq<string>) returns (out: seq<string>)
    ensures |args| != 2 ==> out == [Usage]
    ensures |args| == 2 && ParseInt(args[1]).None? ==> out == [NotAnInteger]
    ensures |args| == 2 && ParseInt(args[1]).Some? ==> out == Lines(ParseInt(args[1]).value)
  {
    if |args| != 2 {
      return [Usage];
    }
    var parsed := ParseInt(args[1]);
    if parsed.None? {
      return [NotAnInteger];
    }
    var limite: int := parsed.value;
    out := [];
    var i: int := 0;
    while i <= limite
      invariant 0 <= i <= if limite < 0 then 0 else limite + 1
      invariant out == Lines(i - 1)
    {
      var line := Classify(i);
      if line.Some? {
        out := out + [line.value];
      }
      i := i + 1;
    }
  }

  /** Below 15, only 0 is a multiple of both 3 and 5. */
  lemma SmallMultiples(i: nat)
    requires i < 15
    ensures (i % 3 == 0 && i % 5 == 0) <==> i == 0
  {
    if i % 5 == 0 {
      assert i == 0 || i == 5 || i == 10;
    }
  }

  lemma ModByQuotient(a: int, m: int, q: int, r: int)
    requires (m == 3 || m == 5) && 0 <= r < m && a == m * q + r
    ensures a % m == r
  {
  }

  /** Adding multiples of 15 changes neither the remainder by 3 nor the one by 5. */
  lemma ShiftByFifteen(q: nat, r: nat)
    ensures (15 * q + r) % 3 == r % 3 && (15 * q + r) % 5 == r % 5
  {
    ModByQuotient(15 * q + r, 3, 5 * q + r / 3, r % 3);
    ModByQuotient(15 * q + r, 5, 3 * q + r / 5, r % 5);
  }

  /** Divisible by 3 and by 5 exactly when divisible by 15. */
  lemma BazIffFifteen(i: nat)
    ensures Classify(i) == Some("baz") <==> i % 15 == 0
  {
    var q, r := i / 15, i % 15;
    assert i == 15 * q + r;
    ShiftByFifteen(q, r);
    SmallMultiples(r);
  }

  /** For a non-negative bound the first line is "baz", for i = 0. */
  lemma {:induction false} FirstLineIsBaz(n: int)
    requires n >= 0
    ensures |Lines(n)| > 0 && Lines(n)[0] == "baz"
    decreases n
  {
    if n > 0 {
      FirstLineIsBaz(n - 1);
    }
  }

  /** Later bounds only add lines at the end: lines come out in increasing i. */
  lemma {:induction false} LinesGrowAtTheEnd(m: int, n: int)
    requires m <= n
    ensures Lines(m) <= Lines(n)
    decreases n - m
  {
    if m < n {
      LinesGrowAtTheEnd(m, n - 1);
    }
  }

  /** Every line is one of the three words. */
  lemma {:induction false} OnlyThreeWords(n: int)
    ensures forall k :: 0 <= k < |Lines(n)| ==> Lines(n)[k] in {"foo", "bar", "baz"}
    decreases n + 1
  {
    if n >= 0 {
      OnlyThreeWords(n - 1);
    }
  }

  ghost function Hits(n: int): set<nat> {
    set i: nat | i <= n && (i % 3 == 0 || i % 5 == 0)
  }

  /** One line per i in [0, n] that 3 or 5 divides. */
  lemma {:induction false} LineCount(n: int)
    ensures |Lines(n)| == |Hits(n)|
    decreases n + 1
  {
    if n < 0 {
      assert Hits(n) == {};
    } else {
      LineCount(n - 1);
      if n % 3 == 0 || n % 5 == 0 {
        assert Hits(n) == Hits(n - 1) + {n};
      } else {
        assert Hits(n) == Hits(n - 1);
      }
    }
  }
}
