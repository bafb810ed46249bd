/** The career path visualiser's summary figures: the approximate total
    duration of a path, read off the steps' duration strings, and the number of
    milestones. */
module CareerPath {
  import opened Text

  /** A timeline step; the stage, status, description, skills and icon are
      presentation and left out. */
  datatype Step = Step(title: string, duration: string)

  datatype CareerPathInfo = CareerPathInfo(title: string, timeline: seq<Step>)

  /** The longest prefix of `s` made of decimal digits. */
  function LeadingDigits(s: string): (r: string)
    ensures |r| <= |s| && r == s[..|r|]
    ensures forall i :: 0 <= i < |r| ==> IsDigit(r[i])
    ensures |r| == |s| || !IsDigit(s[|r|])
    decreases |s|
  {
    if s != [] && IsDigit(s[0]) then
      var t := LeadingDigits(s[1..]);
      assert s[1..][..|t|] == s[1..|t| + 1];
      [s[0]] + t
    else []
  }

  /** `s.match(/\d+/)?.[0] || ""`: the leftmost maximal run of decimal digits,
      or the empty string when `s` has none. */
  function FirstDigitRun(s: string): string
    decreases |s|
  {
    if s == [] then []
    else if IsDigit(s[0]) then LeadingDigits(s)
    else FirstDigitRun(s[1..])
  }

  predicate NoDigits(s: string) {
    forall i :: 0 <= i < |s| ==> !IsDigit(s[i])
  }

  /** The position of the first decimal digit of `s`, or `|s|` when there is none. */
  function FirstDigitAt(s: string): (i: nat)
    ensures i <= |s| && NoDigits(s[..i])
    ensures i < |s| ==> IsDigit(s[i])
    decreases |s|
  {
    if s == [] || IsDigit(s[0]) then 0
    else
      var j := FirstDigitAt(s[1..]);
      assert s[..j + 1] == [s[0]] + s[1..][..j];
      j + 1
  }

  /** FirstDigitRun finds what the regular expression does: the maximal run of
      digits starting at the first digit, which is empty exactly when `s` has no
      digit. */
  lemma {:induction false} FirstDigitRunSpec(s: string)
    ensures FirstDigitRun(s) == LeadingDigits(s[FirstDigitAt(s)..])
    ensures FirstDigitRun(s) == [] <==> NoDigits(s)
    decreases |s|
  {
    if s != [] && !IsDigit(s[0]) {
      FirstDigitRunSpec(s[1..]);
      assert s[1..][FirstDigitAt(s[1..])..] == s[FirstDigitAt(s)..];
    }
    var i := FirstDigitAt(s);
    if i == |s| {
      assert s[..i] == s;
    } else {
      assert s[i..][0] == s[i];
    }
  }

  /** `Number.parseInt` of a string of decimal digits. */
  function DecimalValue(ds: string): nat
    decreases |ds|
  {
    if ds == [] then 0
    else
      var d := ds[|ds| - 1];
      DecimalValue(ds[..|ds| - 1]) * 10 + (if IsDigit(d) then d as int - '0' as int else 0)
  }

  /** The years a step adds: the first number in its duration when the duration
      mentions "years", and nothing otherwise. */
  function StepYears(step: Step): (y: nat)
    ensures !Contains(step.duration, "years") ==> y == 0
    ensures Contains(step.duration, "years") ==> y == DecimalValue(FirstDigitRun(step.duration))
  {
    if Contains(step.duration, "years") then DecimalValue(FirstDigitRun(step.duration)) else 0
  }

  /** The sum of StepYears over a timeline, grouped from the back:
      `y0 + (y1 + (... + (yn + 0)))`. */
  function TotalDuration(timeline: seq<Step>): nat
    decreases |timeline|
  {
    if timeline == [] then 0 else StepYears(timeline[0]) + TotalDuration(timeline[1..])
  }

  /** `timeline.reduce((total, step) => total + years, total)`: the callback
      folded from index 0, `((total + y0) + y1) + ...`, which lands on the same
      sum. */
  function ReduceYears(timeline: seq<Step>, total: nat): (r: nat)
    ensures r == total + TotalDuration(timeline)
    decreases |timeline|
  {
    if timeline == [] then total else ReduceYears(timeline[1..], total + StepYears(timeline[0]))
  }

  /** The total of two timelines put together is the sum of their totals. */
  lemma {:induction false} TotalDurationAppend(a: seq<Step>, b: seq<Step>)
    ensures TotalDuration(a + b) == TotalDuration(a) + TotalDuration(b)
    decreases |a|
  {
    if a != [] {
      assert (a + b)[0] == a[0];
      assert (a + b)[1..] == a[1..] + b;
      TotalDurationAppend(a[1..], b);
    } else {
      assert a + b == b;
    }
  }

  /** A timeline in which no duration mentions "years" totals 0. */
  lemma {:induction false} TotalDurationNoYears(timeline: seq<Step>)
    requires forall i :: 0 <= i < |timeline| ==> !Contains(timeline[i].duration, "years")
    ensures TotalDuration(timeline) == 0
    decreases |timeline|
  {
    if timeline != [] {
      TotalDurationNoYears(timeline[1..]);
    }
  }

  /** `timeline.length`. */
  function Milestones(path: CareerPathInfo): nat {
    |path.timeline|
  }

  /** The `careerPaths` table (keyed "software-engineer", "data-scientist" and
      "doctor"). */
  const SoftwareEngineer := CareerPathInfo("Software Engineer", [
    Step("Class 12th", "Present"),
    Step("Bachelor's Degree", "3-4 years"),
    Step("Internships & Projects", "During college"),
    Step("Entry-Level Position", "1-2 years"),
    Step("Senior Software Engineer", "5+ years")])

  const DataScientist := CareerPathInfo("Data Scientist", [
    Step("Class 12th", "Present"),
    Step("Bachelor's Degree", "3 years"),
    Step("Specialization", "1-2 years"),
    Step("Data Analyst Role", "1-2 years"),
    Step("Senior Data Scientist", "5+ years")])

  const Doctor := CareerPathInfo("Medical Doctor", [
    Step("Class 12th", "Present"),
    Step("Medical Entrance", "1 year"),
    Step("MBBS Degree", "5.5 years"),
    Step("Specialization", "3 years"),
    Step("Practicing Doctor", "Career")])

  /** A duration that opens with a one-digit number counts that digit. */
  lemma SingleLeadingDigit(s: string)
    requires 2 <= |s| && IsDigit(s[0]) && !IsDigit(s[1])
    ensures FirstDigitRun(s) == [s[0]]
    ensures DecimalValue(FirstDigitRun(s)) == s[0] as int - '0' as int
  {
    assert LeadingDigits(s[1..]) == [];
    assert DecimalValue([s[0]]) == DecimalValue([]) * 10 + (s[0] as int - '0' as int);
  }

  /** A duration without the letter y cannot mention "years". */
  lemma NoLetterY(step: Step)
    requires 'y' !in step.duration
    ensures StepYears(step) == 0
  {
    var d := step.duration;
    forall i | 0 <= i <= |d| ensures !OccursAt(d, "years", i) {
      if i + 5 <= |d| {
        assert d[i..i + 5][0] == d[i];
      }
    }
  }

  /** A duration that mentions "years" and opens with a one-digit number adds
      that digit. */
  lemma OneDigitYears(step: Step, at: int)
    requires OccursAt(step.duration, "years", at)
    requires 2 <= |step.duration| && IsDigit(step.duration[0]) && !IsDigit(step.duration[1])
    ensures StepYears(step) == step.duration[0] as int - '0' as int
  {
    SingleLeadingDigit(step.duration);
  }

  /** Steps that give no number of years add nothing. */
  lemma UntimedStepsAddNothing(title: string)
    ensures StepYears(Step(title, "Present")) == 0
    ensures StepYears(Step(title, "During college")) == 0
    ensures StepYears(Step(title, "Career")) == 0
  {
    NoLetterY(Step(title, "Present"));
    NoLetterY(Step(title, "During college"));
    NoLetterY(Step(title, "Career"));
  }

  /** A range counts its lower end: "3-4 years" adds 3 and "1-2 years" adds 1. */
  lemma RangeCountsLowerEnd(title: string)
    ensures StepYears(Step(title, "3-4 years")) == 3
    ensures StepYears(Step(title, "1-2 years")) == 1
  {
    OneDigitYears(Step(title, "3-4 years"), 4);
    OneDigitYears(Step(title, "1-2 years"), 4);
  }

  /** A plain count adds itself: "3 years" adds 3. */
  lemma WholeYearsCount(title: string)
    ensures StepYears(Step(title, "3 years")) == 3
  {
    OneDigitYears(Step(title, "3 years"), 2);
  }

  /** A fraction counts its whole part: "5.5 years" adds 5. */
  lemma FractionCountsWholePart(title: string)
    ensures StepYears(Step(title, "5.5 years")) == 5
  {
    OneDigitYears(Step(title, "5.5 years"), 4);
  }

  /** An open-ended "5+ years" adds 5. */
  lemma OpenEndedCountsBound(title: string)
    ensures StepYears(Step(title, "5+ years")) == 5
  {
    OneDigitYears(Step(title, "5+ years"), 3);
  }

  /** The singular "1 year" does not mention "years" and adds nothing. */
  lemma SingularYearNotCounted(title: string)
    ensures StepYears(Step(title, "1 year")) == 0
  {
  }

  lemma TotalOfFive(ts: seq<Step>, y0: nat, y1: nat, y2: nat, y3: nat, y4: nat)
    requires |ts| == 5
    requires StepYears(ts[0]) == y0 && StepYears(ts[1]) == y1 && StepYears(ts[2]) == y2
    requires StepYears(ts[3]) == y3 && StepYears(ts[4]) == y4
    ensures TotalDuration(ts) == y0 + y1 + y2 + y3 + y4
  {
    var t4 := ts[4..];
    assert t4[0] == ts[4] && t4[1..] == [];
    assert TotalDuration(t4) == y4;
    var t3 := ts[3..];
    assert t3[0] == ts[3] && t3[1..] == t4;
    assert TotalDuration(t3) == y3 + y4;
    var t2 := ts[2..];
    assert t2[0] == ts[2] && t2[1..] == t3;
    assert TotalDuration(t2) == y2 + y3 + y4;
    var t1 := ts[1..];
    assert t1[0] == ts[1] && t1[1..] == t2;
    assert TotalDuration(t1) == y1 + y2 + y3 + y4;
  }

  /** The software engineering path has five milestones and about 9 years:
      3 + 1 + 5 from "3-4 years", "1-2 years" and "5+ years". */
  lemma SoftwareEngineerTotal()
    ensures Milestones(SoftwareEngineer) == 5
    ensures TotalDuration(SoftwareEngineer.timeline) == 9
    ensures ReduceYears(SoftwareEngineer.timeline, 0) == 9
  {
    UntimedStepsAddNothing("Class 12th");
    RangeCountsLowerEnd("Bachelor's Degree");
    UntimedStepsAddNothing("Internships & Projects");
    RangeCountsLowerEnd("Entry-Level Position");
    OpenEndedCountsBound("Senior Software Engineer");
    TotalOfFive(SoftwareEngineer.timeline, 0, 3, 0, 1, 5);
  }

  /** The data science path has five milestones and about 10 years. */
  lemma DataScientistTotal()
    ensures Milestones(DataScientist) == 5
    ensures TotalDuration(DataScientist.timeline) == 10
    ensures ReduceYears(DataScientist.timeline, 0) == 10
  {
    UntimedStepsAddNothing("Class 12th");
    WholeYearsCount("Bachelor's Degree");
    RangeCountsLowerEnd("Specialization");
    RangeCountsLowerEnd("Data Analyst Role");
    OpenEndedCountsBound("Senior Data Scientist");
    TotalOfFive(DataScientist.timeline, 0, 3, 1, 1, 5);
  }

  /** The medical path has five milestones and about 8 years: the one-year
      entrance step and the open-ended career step add nothing. */
  lemma DoctorTotal()
    ensures Milestones(Doctor) == 5
    ensures TotalDuration(Doctor.timeline) == 8
    ensures ReduceYears(Doctor.timeline, 0) == 8
  {
    UntimedStepsAddNothing("Class 12th");
    SingularYearNotCounted("Medical Entrance");
    FractionCountsWholePart("MBBS Degree");
    WholeYearsCount("Specialization");
    UntimedStepsAddNothing("Practicing Doctor");
    TotalOfFive(Doctor.timeline, 0, 0, 5, 3, 0);
  }
}
