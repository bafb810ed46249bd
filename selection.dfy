/** The list rules shared by the college and course recommendation pages: a
    favourites list whose entries are toggled in and out, and a comparison list
    that toggles the same way but refuses a fourth entry. */
module Selection {
  import opened Notifications

  /** At most this many entries can be compared at once. */
  const CompareLimit: nat := 3

  /** Entries are college names or course titles, compared as strings. */
  type Name = string

  predicate NoDup(xs: seq<Name>) {
    forall i, j :: 0 <= i < j < |xs| ==> xs[i] != xs[j]
  }

  /** `prev.filter((y) => y !== x)`: every occurrence of `x` dropped, the rest
      kept in order. */
  function Without(xs: seq<Name>, x: Name): (r: seq<Name>)
    ensures x !in r
    ensures forall y :: y in r <==> y in xs && y != x
    ensures |r| <= |xs|
    ensures x !in xs ==> r == xs
    ensures x in xs ==> |r| < |xs|
    decreases |xs|
  {
    if xs == [] then []
    else if xs[0] == x then Without(xs[1..], x)
    else [xs[0]] + Without(xs[1..], x)
  }

  /** Dropping an entry keeps a list free of duplicates, and with no duplicates
      exactly one entry goes. */
  lemma {:induction false} WithoutNoDup(xs: seq<Name>, x: Name)
    requires NoDup(xs)
    ensures NoDup(Without(xs, x))
    ensures x in xs ==> |Without(xs, x)| == |xs| - 1
    decreases |xs|
  {
    if xs != [] {
      var rest := xs[1..];
      assert NoDup(rest) by {
        forall i, j | 0 <= i < j < |rest| ensures rest[i] != rest[j] {
          assert rest[i] == xs[i + 1] && rest[j] == xs[j + 1];
        }
      }
      WithoutNoDup(rest, x);
      assert xs[0] !in rest by {
        forall k | 0 <= k < |rest| ensures rest[k] != xs[0] {
          assert rest[k] == xs[k + 1];
        }
      }
    }
  }

  /** `prev.includes(x) ? prev.filter(...) : [...prev, x]`. */
  function Toggled(xs: seq<Name>, x: Name): (r: seq<Name>)
    ensures x in r <==> x !in xs
    ensures x !in xs ==> r == xs + [x]
    ensures x in xs ==> r == Without(xs, x)
    ensures forall y :: y != x ==> (y in r <==> y in xs)
  {
    if x in xs then Without(xs, x) else xs + [x]
  }

  /** Toggling never introduces a duplicate. */
  lemma ToggledNoDup(xs: seq<Name>, x: Name)
    requires NoDup(xs)
    ensures NoDup(Toggled(xs, x))
  {
    if x in xs {
      WithoutNoDup(xs, x);
    }
  }

  /** Toggling an absent entry twice gives the list back unchanged. */
  lemma ToggleTwiceAbsent(xs: seq<Name>, x: Name)
    requires x !in xs
    ensures Toggled(Toggled(xs, x), x) == xs
  {
    WithoutAppended(xs, x);
  }

  lemma {:induction false} WithoutAppended(xs: seq<Name>, x: Name)
    requires x !in xs
    ensures Without(xs + [x], x) == xs
    decreases |xs|
  {
    if xs == [] {
      assert [] + [x] == [x];
    } else {
      assert (xs + [x])[1..] == xs[1..] + [x];
      WithoutAppended(xs[1..], x);
    }
  }

  /** Toggling a present entry twice moves it to the end of the list. */
  lemma ToggleTwicePresent(xs: seq<Name>, x: Name)
    requires x in xs
    ensures Toggled(Toggled(xs, x), x) == Without(xs, x) + [x]
  {
  }

  /** How a comparison press ended, which decides the toast shown. */
  datatype CompareOutcome = Removed | Added(count: nat) | LimitReached

  /** `handleToggleCompare` / `handleCompareCourse`: remove a compared entry,
      add a new one while fewer than three are compared, otherwise keep the
      list and report the limit. */
  function CompareToggled(xs: seq<Name>, x: Name): (r: (seq<Name>, CompareOutcome))
    ensures x in xs ==> r == (Without(xs, x), Removed)
    ensures x !in xs && |xs| < CompareLimit ==> r == (xs + [x], Added(|xs| + 1))
    ensures x !in xs && |xs| >= CompareLimit ==> r == (xs, LimitReached)
  {
    if x in xs then (Without(xs, x), Removed)
    else if |xs| < CompareLimit then
      var added := xs + [x];
      (added, Added(|added|))
    else (xs, LimitReached)
  }

  /** A comparison list never grows past three entries and never gains a
      duplicate; an added entry's count is its new length, 1 to 3. */
  lemma CompareKeepsLimit(xs: seq<Name>, x: Name)
    requires |xs| <= CompareLimit && NoDup(xs)
    ensures |CompareToggled(xs, x).0| <= CompareLimit
    ensures NoDup(CompareToggled(xs, x).0)
    ensures CompareToggled(xs, x).1.Added? ==>
              CompareToggled(xs, x).1.count == |CompareToggled(xs, x).0| && 1 <= CompareToggled(xs, x).1.count <= CompareLimit
  {
    if x in xs {
      WithoutNoDup(xs, x);
    }
  }

  /** Exactly the refused press leaves the list as it was, and it only happens
      with three entries compared. */
  lemma CompareRefusedIffFull(xs: seq<Name>, x: Name)
    requires |xs| <= CompareLimit
    ensures CompareToggled(xs, x).1 == LimitReached <==> x !in xs && |xs| == CompareLimit
    ensures CompareToggled(xs, x).1 == LimitReached ==> CompareToggled(xs, x).0 == xs
  {
  }

  /** The decimal spelling of a natural number, as template literals print it. */
  function Decimal(n: nat): (r: string)
    ensures |r| >= 1
    ensures forall i :: 0 <= i < |r| ==> '0' <= r[i] <= '9'
    ensures n < 10 ==> r == [('0' as int + n) as char]
  {
    if n < 10 then [('0' as int + n) as char] else Decimal(n / 10) + Decimal(n % 10)
  }

  /** The toast after a comparison press; `noun` is "colleges" or "courses". */
  function CompareToast(x: Name, outcome: CompareOutcome, noun: string): (t: Toast)
    ensures t.Failure? <==> outcome == LimitReached
  {
    match outcome
    case Removed => Success(x + " removed from comparison")
    case Added(n) => Success(x + " added to comparison (" + Decimal(n) + "/" + Decimal(CompareLimit) + ")")
    case LimitReached => Failure("You can only compare up to " + Decimal(CompareLimit) + " " + noun + " at once")
  }
}
