/** The password-strength meter of the registration form: one point per rule the
    password meets, a coloured bar and a hint chosen from the score, shown only
    while the password field is not empty. */
module PasswordStrength {
  import opened Text

  /** The five rules, each worth one point. */
  datatype Criterion = LongerThan6 | LongerThan10 | HasUppercase | HasDigit | HasSymbol

  const AllCriteria: set<Criterion> := {LongerThan6, LongerThan10, HasUppercase, HasDigit, HasSymbol}

  /** `/[^A-Za-z0-9]/`: anything but an ASCII letter or digit. */
  predicate IsSymbol(c: char) { !IsUpper(c) && !IsLower(c) && !IsDigit(c) }

  predicate Meets(pwd: string, c: Criterion)
  {
    match c
    case LongerThan6 => |pwd| > 6
    case LongerThan10 => |pwd| > 10
    case HasUppercase => exists i :: 0 <= i < |pwd| && IsUpper(pwd[i])
    case HasDigit => exists i :: 0 <= i < |pwd| && IsDigit(pwd[i])
    case HasSymbol => exists i :: 0 <= i < |pwd| && IsSymbol(pwd[i])
  }

  function Only(pwd: string, c: Criterion): set<Criterion>
  {
    if Meets(pwd, c) then {c} else {}
  }

  /** The rules a password meets. */
  function SatisfiedCriteria(pwd: string): (met: set<Criterion>)
    ensures met <= AllCriteria
    ensures forall c :: c in met <==> Meets(pwd, c)
  {
    Only(pwd, LongerThan6) + Only(pwd, LongerThan10) + Only(pwd, HasUppercase) +
    Only(pwd, HasDigit) + Only(pwd, HasSymbol)
  }

  /** Adds one point per rule, rule by rule; the score is the number of rules met. */
  method CheckPasswordStrength(pwd: string) returns (strength: nat)
    ensures strength == |SatisfiedCriteria(pwd)|
    ensures strength <= 5
  {
    strength := 0;
    if |pwd| > 6 {
      strength := strength + 1;
    }
    if |pwd| > 10 {
      strength := strength + 1;
    }
    if Meets(pwd, HasUppercase) {
      strength := strength + 1;
    }
    if Meets(pwd, HasDigit) {
      strength := strength + 1;
    }
    if Meets(pwd, HasSymbol) {
      strength := strength + 1;
    }
    assert strength == Point(pwd, LongerThan6) + Point(pwd, LongerThan10) + Point(pwd, HasUppercase) +
                       Point(pwd, HasDigit) + Point(pwd, HasSymbol);
    CountPoints(pwd);
  }

  function Point(pwd: string, c: Criterion): nat
  {
    if Meets(pwd, c) then 1 else 0
  }

  /** The number of rules met is the sum of the points, and at most five. */
  lemma CountPoints(pwd: string)
    ensures |SatisfiedCriteria(pwd)| == Point(pwd, LongerThan6) + Point(pwd, LongerThan10) +
      Point(pwd, HasUppercase) + Point(pwd, HasDigit) + Point(pwd, HasSymbol)
    ensures |SatisfiedCriteria(pwd)| <= 5
  {
    CountFirstThree(pwd);
    var met := Only(pwd, LongerThan6) + Only(pwd, LongerThan10) + Only(pwd, HasUppercase);
    AddOne(met, pwd, HasDigit);
    met := met + Only(pwd, HasDigit);
    AddOne(met, pwd, HasSymbol);
  }

  lemma CountFirstThree(pwd: string)
    ensures |Only(pwd, LongerThan6) + Only(pwd, LongerThan10) + Only(pwd, HasUppercase)| ==
      Point(pwd, LongerThan6) + Point(pwd, LongerThan10) + Point(pwd, HasUppercase)
  {
    var met := Only(pwd, LongerThan6);
    AddOne(met, pwd, LongerThan10);
    met := met + Only(pwd, LongerThan10);
    AddOne(met, pwd, HasUppercase);
  }

  /** Counting a rule not counted yet adds one point exactly when it is met. */
  lemma AddOne(met: set<Criterion>, pwd: string, c: Criterion)
    requires c !in met
    ensures |met + Only(pwd, c)| == |met| + Point(pwd, c)
  {
  }

  lemma SubsetCard(a: set<Criterion>, b: set<Criterion>)
    requires a <= b
    ensures |a| <= |b|
    ensures |a| == |b| ==> a == b
  {
    assert b == a + (b - a);
  }

  /** The empty password scores nothing. */
  lemma EmptyScoresZero()
    ensures |SatisfiedCriteria("")| == 0
  {
    assert SatisfiedCriteria("") == {};
  }

  /** Every rule is monotone: a rule met by a password is met once a character
      is appended. */
  lemma MeetsAppend(pwd: string, c: char, k: Criterion)
    requires Meets(pwd, k)
    ensures Meets(pwd + [c], k)
  {
    var longer := pwd + [c];
    match k
    case LongerThan6 =>
    case LongerThan10 =>
    case HasUppercase =>
      var i :| 0 <= i < |pwd| && IsUpper(pwd[i]);
      assert longer[i] == pwd[i];
    case HasDigit =>
      var i :| 0 <= i < |pwd| && IsDigit(pwd[i]);
      assert longer[i] == pwd[i];
    case HasSymbol =>
      var i :| 0 <= i < |pwd| && IsSymbol(pwd[i]);
      assert longer[i] == pwd[i];
  }

  /** Typing one more character never lowers the score. */
  lemma AppendNeverWeakens(pwd: string, c: char)
    ensures SatisfiedCriteria(pwd) <= SatisfiedCriteria(pwd + [c])
    ensures |SatisfiedCriteria(pwd)| <= |SatisfiedCriteria(pwd + [c])|
  {
    forall k | k in SatisfiedCriteria(pwd) ensures k in SatisfiedCriteria(pwd + [c]) {
      MeetsAppend(pwd, c, k);
    }
    SubsetCard(SatisfiedCriteria(pwd), SatisfiedCriteria(pwd + [c]));
  }

  /** A password longer than ten characters scores at least two. */
  lemma LongPasswordAtLeastTwo(pwd: string)
    requires |pwd| > 10
    ensures |SatisfiedCriteria(pwd)| >= 2
  {
    SubsetCard({LongerThan6, LongerThan10}, SatisfiedCriteria(pwd));
  }

  /** A password of lower-case ASCII letters scores at most one whatever its
      length up to ten, and at most two beyond. */
  lemma LowercaseOnlyScoresLength(pwd: string)
    requires forall i :: 0 <= i < |pwd| ==> IsLower(pwd[i])
    ensures SatisfiedCriteria(pwd) <= {LongerThan6, LongerThan10}
    ensures |pwd| <= 10 ==> |SatisfiedCriteria(pwd)| <= 1
  {
    SubsetCard(SatisfiedCriteria(pwd), {LongerThan6, LongerThan10});
    if |pwd| <= 10 {
      SubsetCard(SatisfiedCriteria(pwd), {LongerThan6});
    }
  }

  /** The top score of five is reached exactly when the password is longer than
      ten characters and has an upper-case letter, a digit and a symbol. */
  lemma FullScore(pwd: string)
    ensures |SatisfiedCriteria(pwd)| == 5 <==>
      |pwd| > 10 && Meets(pwd, HasUppercase) && Meets(pwd, HasDigit) && Meets(pwd, HasSymbol)
  {
    var met := SatisfiedCriteria(pwd);
    assert |AllCriteria| == 5;
    SubsetCard(met, AllCriteria);
    if |met| == 5 {
      assert LongerThan10 in met;
    }
    if |pwd| > 10 && Meets(pwd, HasUppercase) && Meets(pwd, HasDigit) && Meets(pwd, HasSymbol) {
      assert met == AllCriteria;
    }
  }

  // ---------------------------------------------------------------------------
  // The indicator

  /** The classes of the strength bar: colour and width, one step per point. */
  function BarClass(strength: int): (cls: string)
    ensures strength >= 4 ==> cls == "bg-green-500 w-full"
  {
    if strength == 0 then "bg-red-500 w-1/5"
    else if strength == 1 then "bg-red-400 w-2/5"
    else if strength == 2 then "bg-yellow-500 w-3/5"
    else if strength == 3 then "bg-yellow-400 w-4/5"
    else "bg-green-500 w-full"
  }

  /** Every score from 0 to 4 gets its own bar; higher scores share the full one. */
  lemma BarClassesDistinct(s: int, t: int)
    requires 0 <= s < t <= 4
    ensures BarClass(s) != BarClass(t)
  {
  }

  datatype Hint = Weak | Medium | Strong

  /** The hints rendered under the bar: each has its own condition on the score. */
  function Hints(strength: int): set<Hint>
  {
    (if strength < 2 then {Weak} else {}) +
    (if 2 <= strength < 4 then {Medium} else {}) +
    (if strength >= 4 then {Strong} else {})
  }

  /** Exactly one hint is shown for any score, chosen by the thresholds 2 and 4. */
  lemma ExactlyOneHint(strength: int)
    ensures strength < 2 ==> Hints(strength) == {Weak}
    ensures 2 <= strength < 4 ==> Hints(strength) == {Medium}
    ensures strength >= 4 ==> Hints(strength) == {Strong}
    ensures |Hints(strength)| == 1
  {
  }

  /** What is drawn below the password field: nothing while it is empty,
      otherwise the bar and the hints for the score. */
  datatype Indicator = Hidden | Shown(barClass: string, hints: set<Hint>)

  function IndicatorFor(password: string, strength: int): (ind: Indicator)
    ensures ind.Hidden? <==> password == ""
  {
    if password == "" then Hidden else Shown(BarClass(strength), Hints(strength))
  }

  /** A short password of lower-case letters is always called weak, with the
      bar at one or two fifths. */
  lemma ShortLowercaseIsWeak(pwd: string)
    requires 0 < |pwd| <= 10
    requires forall i :: 0 <= i < |pwd| ==> IsLower(pwd[i])
    ensures IndicatorFor(pwd, |SatisfiedCriteria(pwd)|).hints == {Weak}
    ensures IndicatorFor(pwd, |SatisfiedCriteria(pwd)|).barClass in {"bg-red-500 w-1/5", "bg-red-400 w-2/5"}
  {
    LowercaseOnlyScoresLength(pwd);
    ExactlyOneHint(|SatisfiedCriteria(pwd)|);
  }
}
