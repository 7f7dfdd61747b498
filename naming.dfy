/** Names for rotated log files and the bounded search for the first free one
    (filelog.go, nextIntegerFilename and nextDateFilename). The filesystem is
    the set of path names that a probe finds; a name is free when it is not
    in that set. */
module Naming {
  import opened Wrappers
  import opened Decimal

  datatype NamingError = NoFreeNumber | NoFreeDateName

  /** Largest integer suffix tried: `<path>.999`. */
  const MaxIntegerSuffix: nat := 999
  /** Largest disambiguating counter tried after a date: `<path>.<date>.9999`. */
  const MaxDateCounter: nat := 9999

  /** `<path>.NNN`, NNN zero-padded to three digits. */
  function IntegerName(filename: string, i: nat): string
  {
    filename + "." + Pad(i, 3)
  }

  /** `<path>.<date>` */
  function DateName(filename: string, suffix: string): string
  {
    filename + "." + suffix
  }

  /** `<path>.<date>.NNNN`, NNNN zero-padded to four digits. */
  function DateCounterName(filename: string, suffix: string, i: nat): string
  {
    filename + "." + suffix + "." + Pad(i, 4)
  }

  /** The integer candidates in the order they are probed. */
  function IntegerCandidates(filename: string): seq<string>
  {
    seq(MaxIntegerSuffix, i requires 0 <= i => IntegerName(filename, i + 1))
  }

  /** The counter-suffixed date candidates in the order they are probed. */
  function DateCounterCandidates(filename: string, suffix: string): seq<string>
  {
    seq(MaxDateCounter, i requires 0 <= i => DateCounterName(filename, suffix, i + 1))
  }

  /** Index of the first candidate that does not exist, if any. */
  function FirstFree(existing: set<string>, candidates: seq<string>): (r: Option<nat>)
    ensures r.Some? ==> r.value < |candidates| && candidates[r.value] !in existing
    ensures r.Some? ==> forall j :: 0 <= j < r.value ==> candidates[j] in existing
    ensures r.None? <==> forall j :: 0 <= j < |candidates| ==> candidates[j] in existing
    decreases |candidates|
  {
    if candidates == [] then None
    else if candidates[0] !in existing then Some(0)
    else match FirstFree(existing, candidates[1..])
      case Some(k) => Some(k + 1)
      case None => None
  }

  /** A free candidate preceded only by existing ones is the first free one. */
  lemma FirstFreeAt(existing: set<string>, candidates: seq<string>, k: nat)
    requires k < |candidates| && candidates[k] !in existing
    requires forall j :: 0 <= j < k ==> candidates[j] in existing
    ensures FirstFree(existing, candidates) == Some(k)
  {
  }

  /** The name nextIntegerFilename settles on: the first free candidate. */
  function LeastFreeIntegerName(existing: set<string>, filename: string): Result<string, NamingError>
  {
    match FirstFree(existing, IntegerCandidates(filename))
    case Some(k) => Ok(IntegerName(filename, k + 1))
    case None => Err(NoFreeNumber)
  }

  /** The name nextDateFilename settles on: the bare date name when free,
      else the first free counter candidate. */
  function LeastFreeDateName(existing: set<string>, filename: string, suffix: string): Result<string, NamingError>
  {
    if DateName(filename, suffix) !in existing then Ok(DateName(filename, suffix))
    else match FirstFree(existing, DateCounterCandidates(filename, suffix))
      case Some(k) => Ok(DateCounterName(filename, suffix, k + 1))
      case None => Err(NoFreeDateName)
  }

  /** The integer name is the least free `<path>.NNN` with NNN in 1..999 and
      never an existing name; the error comes exactly when all 999 exist. */
  lemma LeastFreeIntegerNameIsLeast(existing: set<string>, filename: string)
    ensures var r := LeastFreeIntegerName(existing, filename);
      r.Ok? ==> r.value !in existing
    ensures var r := LeastFreeIntegerName(existing, filename);
      r.Ok? ==> exists i :: 1 <= i <= MaxIntegerSuffix && r.value == IntegerName(filename, i) &&
                  forall j :: 1 <= j < i ==> IntegerName(filename, j) in existing
    ensures LeastFreeIntegerName(existing, filename).Err? <==>
              forall i :: 1 <= i <= MaxIntegerSuffix ==> IntegerName(filename, i) in existing
  {
    var c := IntegerCandidates(filename);
    match FirstFree(existing, c)
    case Some(k) =>
      assert c[k] == IntegerName(filename, k + 1);
      assert forall j :: 1 <= j < k + 1 ==> c[j - 1] == IntegerName(filename, j);
    case None =>
      assert forall i :: 1 <= i <= MaxIntegerSuffix ==> c[i - 1] == IntegerName(filename, i);
  }

  /** The date name is `<path>.<date>` exactly when that is free, else the
      least free `<path>.<date>.NNNN` with NNNN in 1..9999; it never exists;
      the error comes exactly when the bare name and all 9999 exist. */
  lemma LeastFreeDateNameIsLeast(existing: set<string>, filename: string, suffix: string)
    ensures var r := LeastFreeDateName(existing, filename, suffix);
      r.Ok? ==> r.value !in existing
    ensures var r := LeastFreeDateName(existing, filename, suffix);
      r.Ok? ==> (r.value == DateName(filename, suffix) <==> DateName(filename, suffix) !in existing)
    ensures var r := LeastFreeDateName(existing, filename, suffix);
      r.Ok? && r.value != DateName(filename, suffix) ==>
        exists i :: 1 <= i <= MaxDateCounter && r.value == DateCounterName(filename, suffix, i) &&
          forall j :: 1 <= j < i ==> DateCounterName(filename, suffix, j) in existing
    ensures LeastFreeDateName(existing, filename, suffix).Err? <==>
              (DateName(filename, suffix) in existing &&
               forall i :: 1 <= i <= MaxDateCounter ==> DateCounterName(filename, suffix, i) in existing)
  {
    if DateName(filename, suffix) in existing {
      var c := DateCounterCandidates(filename, suffix);
      match FirstFree(existing, c)
      case Some(k) =>
        assert c[k] == DateCounterName(filename, suffix, k + 1);
        assert |c[k]| > |DateName(filename, suffix)|;
        assert forall j :: 1 <= j < k + 1 ==> c[j - 1] == DateCounterName(filename, suffix, j);
      case None =>
        assert forall i :: 1 <= i <= MaxDateCounter ==> c[i - 1] == DateCounterName(filename, suffix, i);
    }
  }

  /** Conversely, a free `<path>.NNN` whose smaller numbers all exist is the
      name chosen. */
  lemma LeastFreeIntegerNameFromTaken(existing: set<string>, filename: string, n: nat)
    requires 1 <= n <= MaxIntegerSuffix && IntegerName(filename, n) !in existing
    requires forall j :: 1 <= j < n ==> IntegerName(filename, j) in existing
    ensures LeastFreeIntegerName(existing, filename) == Ok(IntegerName(filename, n))
  {
    var c := IntegerCandidates(filename);
    assert c[n - 1] == IntegerName(filename, n);
    assert forall j :: 0 <= j < n - 1 ==> c[j] == IntegerName(filename, j + 1);
    FirstFreeAt(existing, c, n - 1);
  }

  /** Conversely, when `<path>.<date>` exists, a free `<path>.<date>.NNNN`
      whose smaller counters all exist is the name chosen. */
  lemma LeastFreeDateNameFromTaken(existing: set<string>, filename: string, suffix: string, n: nat)
    requires DateName(filename, suffix) in existing
    requires 1 <= n <= MaxDateCounter && DateCounterName(filename, suffix, n) !in existing
    requires forall j :: 1 <= j < n ==> DateCounterName(filename, suffix, j) in existing
    ensures LeastFreeDateName(existing, filename, suffix) == Ok(DateCounterName(filename, suffix, n))
  {
    var c := DateCounterCandidates(filename, suffix);
    assert c[n - 1] == DateCounterName(filename, suffix, n);
    assert forall j :: 0 <= j < n - 1 ==> c[j] == DateCounterName(filename, suffix, j + 1);
    FirstFreeAt(existing, c, n - 1);
  }

  /** nextIntegerFilename: probe `<path>.001` .. `<path>.999` in order and
      return the first that does not exist. */
  method NextIntegerFilename(existing: set<string>, filename: string) returns (r: Result<string, NamingError>)
    ensures r == LeastFreeIntegerName(existing, filename)
  {
    var i := 1;
    while i <= MaxIntegerSuffix
      invariant 1 <= i <= MaxIntegerSuffix + 1
      invariant forall j :: 1 <= j < i ==> IntegerName(filename, j) in existing
    {
      var fullName := IntegerName(filename, i);
      if fullName !in existing {
        LeastFreeIntegerNameFromTaken(existing, filename, i);
        return Ok(fullName);
      }
      i := i + 1;
    }
    LeastFreeIntegerNameIsLeast(existing, filename);
    return Err(NoFreeNumber);
  }

  /** nextDateFilename: try `<path>.<suffix>`, then `<path>.<suffix>.0001` ..
      `<path>.<suffix>.9999` in order. */
  method NextDateFilename(existing: set<string>, filename: string, suffix: string) returns (r: Result<string, NamingError>)
    ensures r == LeastFreeDateName(existing, filename, suffix)
  {
    var fullName := DateName(filename, suffix);
    if fullName !in existing {
      return Ok(fullName);
    }
    var i := 1;
    while i <= MaxDateCounter
      invariant 1 <= i <= MaxDateCounter + 1
      invariant forall j :: 1 <= j < i ==> DateCounterName(filename, suffix, j) in existing
    {
      var fullNameWithSuffix := DateCounterName(filename, suffix, i);
      if fullNameWithSuffix !in existing {
        LeastFreeDateNameFromTaken(existing, filename, suffix, i);
        return Ok(fullNameWithSuffix);
      }
      i := i + 1;
    }
    LeastFreeDateNameIsLeast(existing, filename, suffix);
    return Err(NoFreeDateName);
  }

  /** The 999 integer candidates are pairwise distinct, so exhausting them
      means 999 distinct rotated files exist. */
  lemma IntegerNamesDistinct(filename: string, i: nat, j: nat)
    requires 1 <= i <= MaxIntegerSuffix && 1 <= j <= MaxIntegerSuffix
    requires IntegerName(filename, i) == IntegerName(filename, j)
    ensures i == j
  {
    var p := |filename| + 1;
    PadLength(i, 3);
    PadLength(j, 3);
    assert Pad(i, 3) == IntegerName(filename, i)[p..];
    assert Pad(j, 3) == IntegerName(filename, j)[p..];
    PadInjective(i, j, 3);
  }

  /** The 9999 counter candidates are pairwise distinct. */
  lemma DateCounterNamesDistinct(filename: string, suffix: string, i: nat, j: nat)
    requires 1 <= i <= MaxDateCounter && 1 <= j <= MaxDateCounter
    requires DateCounterName(filename, suffix, i) == DateCounterName(filename, suffix, j)
    ensures i == j
  {
    var p := |filename| + |suffix| + 2;
    PadLength(i, 4);
    PadLength(j, 4);
    assert Pad(i, 4) == DateCounterName(filename, suffix, i)[p..];
    assert Pad(j, 4) == DateCounterName(filename, suffix, j)[p..];
    PadInjective(i, j, 4);
  }

  /** The names are bit-exact: three-digit and four-digit zero padding. */
  lemma NameLayout()
    ensures IntegerName("app.log", 6) == "app.log.006"
    ensures IntegerName("app.log", 999) == "app.log.999"
    ensures DateName("app.log", "2024-03-07") == "app.log.2024-03-07"
    ensures DateCounterName("app.log", "2024-03-07", 1) == "app.log.2024-03-07.0001"
  {
  }

  /** With `<path>.001` .. `<path>.005` already present, the next integer
      rotation lands on `<path>.006`. */
  lemma SkipsTakenNumbers(filename: string, existing: set<string>)
    requires existing == {filename, IntegerName(filename, 1), IntegerName(filename, 2), IntegerName(filename, 3),
                          IntegerName(filename, 4), IntegerName(filename, 5)}
    ensures LeastFreeIntegerName(existing, filename) == Ok(IntegerName(filename, 6))
  {
    SixthIsFree(filename, existing);
    forall j | 1 <= j < 6
      ensures IntegerName(filename, j) in existing
    {
    }
    LeastFreeIntegerNameFromTaken(existing, filename, 6);
  }

  lemma SixthIsFree(filename: string, existing: set<string>)
    requires existing == {filename, IntegerName(filename, 1), IntegerName(filename, 2), IntegerName(filename, 3),
                          IntegerName(filename, 4), IntegerName(filename, 5)}
    ensures IntegerName(filename, 6) !in existing
  {
    var six := IntegerName(filename, 6);
    forall j | 1 <= j <= 5
      ensures IntegerName(filename, j) != six
    {
      if IntegerName(filename, j) == six {
        IntegerNamesDistinct(filename, j, 6);
      }
    }
    assert |six| > |filename|;
  }

  /** Two rotations on the same date: the first takes `<path>.<date>`, the
      second `<path>.<date>.0001`. */
  lemma SameDateRotations(filename: string, suffix: string, existing: set<string>)
    requires DateName(filename, suffix) !in existing
    requires DateCounterName(filename, suffix, 1) !in existing
    ensures LeastFreeDateName(existing, filename, suffix) == Ok(DateName(filename, suffix))
    ensures LeastFreeDateName(existing + {DateName(filename, suffix)}, filename, suffix) ==
            Ok(DateCounterName(filename, suffix, 1))
  {
  }
}
