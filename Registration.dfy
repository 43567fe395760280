/**
 * The public registration form: the CPF and phone input masks, and the
 * form state that the submit and clear handlers update.
 */
module Registration {
  import opened Wrappers
  import opened Strings

  // ------------------------------------------------------- the regex steps

  /** `k` digits start at index `i`. */
  predicate RunAt(s: string, k: nat, i: nat)
  {
    i + k <= |s| && forall j :: i <= j < i + k ==> IsDigit(s[j])
  }

  /** The leftmost index from `from` on where a pattern of `k` digits matches. */
  function FirstRun(s: string, k: nat, from: nat): (r: Option<nat>)
    decreases |s| - from
    ensures r.Some? ==> from <= r.value && RunAt(s, k, r.value)
    ensures r.Some? ==> forall j: nat :: from <= j < r.value ==> !RunAt(s, k, j)
    ensures r.None? ==> forall j: nat :: from <= j ==> !RunAt(s, k, j)
  {
    if from + k > |s| then None
    else if RunAt(s, k, from) then Some(from)
    else FirstRun(s, k, from + 1)
  }

  /**
   * `s.replace(/(\d{a})(\d…)/, '$1' + sep + '$2')` for a pattern of `k`
   * digits in all: `sep` goes in after the first `a` digits of the leftmost
   * match.
   */
  function InsertInRun(s: string, k: nat, a: nat, sep: string): string
    requires a <= k
  {
    match FirstRun(s, k, 0)
    case None => s
    case Some(i) => s[..i + a] + sep + s[i + a..]
  }

  /** `s.replace(/(\d{2})(\d)/, '($1) $2')`. */
  function WrapAreaCode(s: string): string
  {
    match FirstRun(s, 3, 0)
    case None => s
    case Some(i) => s[..i] + "(" + s[i..i + 2] + ") " + s[i + 2..]
  }

  /** `(-\d{n})\d+?$` matches at `i`: a dash, then at least `n + 1` digits up to the end. */
  predicate DashTailAt(s: string, n: nat, i: nat)
  {
    i + n + 1 < |s| && s[i] == '-' && AllDigits(s[i + 1..])
  }

  function FirstDashTail(s: string, n: nat, from: nat): (r: Option<nat>)
    decreases |s| - from
    ensures r.Some? ==> from <= r.value && DashTailAt(s, n, r.value)
    ensures r.Some? ==> forall j: nat :: from <= j < r.value ==> !DashTailAt(s, n, j)
    ensures r.None? ==> forall j: nat :: from <= j ==> !DashTailAt(s, n, j)
  {
    if from >= |s| then None
    else if DashTailAt(s, n, from) then Some(from)
    else FirstDashTail(s, n, from + 1)
  }

  /** `s.replace(/(-\d{n})\d+?$/, '$1')`: keep `n` digits after the dash. */
  function TrimAfterDash(s: string, n: nat): string
  {
    match FirstDashTail(s, n, 0)
    case None => s
    case Some(i) => s[..i + n + 1]
  }

  // -------------------------------------------------------------- the masks

  /** `maskCPF`, step by step as the chained `replace` calls run. */
  function MaskCPF(value: string): string
  {
    TrimAfterDash(InsertInRun(InsertInRun(InsertInRun(Digits(value), 4, 3, "."), 4, 3, "."), 4, 3, "-"), 2)
  }

  /** `maskPhone`, step by step as the chained `replace` calls run. */
  function MaskPhone(value: string): string
  {
    TrimAfterDash(InsertInRun(WrapAreaCode(Digits(value)), 6, 5, "-"), 4)
  }

  /** The CPF layout `ddd.ddd.ddd-dd`, filled as far as the digits go. */
  function CPFLayout(d: string): string
  {
    if |d| <= 3 then d
    else if |d| <= 6 then d[..3] + "." + d[3..]
    else if |d| <= 9 then d[..3] + "." + d[3..6] + "." + d[6..]
    else d[..3] + "." + d[3..6] + "." + d[6..9] + "-" + d[9..]
  }

  /** The phone layout `(dd) ddddd-dddd`, filled as far as the digits go. */
  function PhoneLayout(d: string): string
  {
    if |d| <= 2 then d
    else if |d| <= 7 then "(" + d[..2] + ") " + d[2..]
    else "(" + d[..2] + ") " + d[2..7] + "-" + d[7..]
  }

  // --------------------------------------------------- search step lemmas

  lemma RunInDigits(d: string, k: nat)
    requires AllDigits(d)
    ensures FirstRun(d, k, 0) == if |d| >= k then Some(0) else None
  {
    if |d| >= k {
      assert RunAt(d, k, 0);
    }
  }

  /** A run of digits that lies inside a prefix is a run of that prefix. */
  lemma RunInPrefix(s: string, p: string, k: nat, j: nat)
    requires |p| <= |s| && s[..|p|] == p && j + k <= |p| && RunAt(s, k, j)
    ensures RunAt(p, k, j)
  {
    forall m | j <= m < j + k
      ensures IsDigit(p[m])
    {
      assert p[m] == s[m];
    }
  }

  /** No run of `k` digits starts in a run-free prefix or at the non-digit after it. */
  lemma NoRunUpToSeparator(s: string, p: string, c: char, t: string, k: nat, j: nat)
    requires s == p + [c] + t && !IsDigit(c) && k > 0
    requires FirstRun(p, k, 0) == None
    requires j <= |p|
    ensures !RunAt(s, k, j)
  {
    assert s[..|p|] == p;
    if j + k <= |p| {
      if RunAt(s, k, j) {
        RunInPrefix(s, p, k, j);
      }
    } else {
      assert s[|p|] == c;
    }
  }

  /** Every window of `k` characters inside the digit tail is a run. */
  lemma RunInTail(s: string, p: string, c: char, t: string, k: nat, j: nat)
    requires s == p + [c] + t && AllDigits(t)
    requires |p| + 1 <= j && j + k <= |s|
    ensures RunAt(s, k, j)
  {
    forall m | j <= m < j + k
      ensures IsDigit(s[m])
    {
      assert s[m] == t[m - |p| - 1];
    }
  }

  /**
   * After a prefix with no run of `k` digits and one non-digit, a tail of
   * digits holds the first run exactly when it is `k` long.
   */
  lemma RunAfterSeparator(s: string, p: string, c: char, t: string, k: nat)
    requires s == p + [c] + t && !IsDigit(c) && AllDigits(t) && k > 0
    requires FirstRun(p, k, 0) == None
    ensures FirstRun(s, k, 0) == if |t| >= k then Some(|p| + 1) else None
  {
    var r := FirstRun(s, k, 0);
    assert |s| == |p| + 1 + |t|;
    if |t| >= k {
      RunInTail(s, p, c, t, k, |p| + 1);
      assert r.Some?;
      if r.value <= |p| {
        NoRunUpToSeparator(s, p, c, t, k, r.value);
      }
      assert r.value == |p| + 1;
    } else if r.Some? {
      assert r.value + k <= |s|;
      NoRunUpToSeparator(s, p, c, t, k, r.value);
    }
  }

  /**
   * A dash that no earlier dash precedes, followed by digits only, is where
   * the trim pattern matches, if more than `n` digits follow.
   */
  lemma DashTailAfter(s: string, p: string, t: string, n: nat)
    requires s == p + "-" + t && AllDigits(t)
    requires forall j :: 0 <= j < |p| ==> p[j] != '-'
    ensures FirstDashTail(s, n, 0) == if |t| > n then Some(|p|) else None
  {
    forall j: nat | j < |p|
      ensures !DashTailAt(s, n, j)
    {
      assert s[j] == p[j];
    }
    forall j: nat | |p| < j < |s|
      ensures !DashTailAt(s, n, j)
    {
      assert s[j] == t[j - |p| - 1];
      assert IsDigit(s[j]);
    }
    assert s[|p| + 1..] == t;
    if |t| > n {
      assert DashTailAt(s, n, |p|);
    }
  }

  lemma NoDashTail(s: string, n: nat)
    requires forall j :: 0 <= j < |s| ==> s[j] != '-'
    ensures FirstDashTail(s, n, 0) == None
  {
  }

  // ------------------------------------------------------- the closed forms

  lemma CPFFirstDot(d0: string)
    requires AllDigits(d0) && |d0| >= 4
    ensures InsertInRun(d0, 4, 3, ".") == d0[..3] + "." + d0[3..]
  {
    RunInDigits(d0, 4);
  }

  lemma CPFSecondDot(d0: string)
    requires AllDigits(d0) && |d0| >= 4
    ensures FirstRun(d0[..3] + "." + d0[3..], 4, 0) == if |d0| >= 7 then Some(4) else None
    ensures |d0| >= 7 ==>
      InsertInRun(d0[..3] + "." + d0[3..], 4, 3, ".") == d0[..3] + "." + d0[3..6] + "." + d0[6..]
  {
    var a, s1 := d0[..3], d0[..3] + "." + d0[3..];
    RunInDigits(a, 4);
    assert s1 == a + ['.'] + d0[3..];
    RunAfterSeparator(s1, a, '.', d0[3..], 4);
    if |d0| >= 7 {
      assert s1[..7] == a + "." + d0[3..6];
      assert s1[7..] == d0[6..];
    }
  }

  lemma CPFDash(d0: string)
    requires AllDigits(d0) && |d0| >= 7
    ensures FirstRun(d0[..3] + "." + d0[3..6] + "." + d0[6..], 4, 0) == if |d0| >= 10 then Some(8) else None
    ensures |d0| >= 10 ==>
      InsertInRun(d0[..3] + "." + d0[3..6] + "." + d0[6..], 4, 3, "-")
      == d0[..3] + "." + d0[3..6] + "." + d0[6..9] + "-" + d0[9..]
  {
    var a, b := d0[..3], d0[3..6];
    var s2 := a + "." + b + "." + d0[6..];
    RunInDigits(a, 4);
    assert a + "." + b == a + ['.'] + b;
    RunAfterSeparator(a + "." + b, a, '.', b, 4);
    assert s2 == (a + "." + b) + ['.'] + d0[6..];
    RunAfterSeparator(s2, a + "." + b, '.', d0[6..], 4);
    if |d0| >= 10 {
      assert s2[..11] == a + "." + b + "." + d0[6..9];
      assert s2[11..] == d0[9..];
    }
  }

  lemma CPFTrim(d0: string)
    requires AllDigits(d0) && |d0| >= 10
    ensures TrimAfterDash(d0[..3] + "." + d0[3..6] + "." + d0[6..9] + "-" + d0[9..], 2) == CPFLayout(Take(d0, 11))
  {
    var p := d0[..3] + "." + d0[3..6] + "." + d0[6..9];
    var s3 := p + "-" + d0[9..];
    assert forall j :: 0 <= j < |p| ==> p[j] != '-' by {
      assert forall j :: 0 <= j < |p| ==> IsDigit(p[j]) || p[j] == '.';
    }
    DashTailAfter(s3, p, d0[9..], 2);
    if |d0| > 11 {
      var d := d0[..11];
      assert d[..3] == d0[..3] && d[3..6] == d0[3..6] && d[6..9] == d0[6..9] && d[9..] == d0[9..11];
      assert s3[..14] == p + "-" + d0[9..11];
    }
  }

  /** The CPF steps on a string of digits lay out its first 11 digits. */
  lemma CPFStepsLayout(d0: string)
    requires AllDigits(d0)
    ensures TrimAfterDash(InsertInRun(InsertInRun(InsertInRun(d0, 4, 3, "."), 4, 3, "."), 4, 3, "-"), 2)
      == CPFLayout(Take(d0, 11))
  {
    if |d0| < 4 {
      RunInDigits(d0, 4);
      NoDashTail(d0, 2);
      return;
    }
    CPFFirstDot(d0);
    CPFSecondDot(d0);
    var s1 := d0[..3] + "." + d0[3..];
    if |d0| < 7 {
      assert forall j :: 0 <= j < |s1| ==> IsDigit(s1[j]) || s1[j] == '.';
      NoDashTail(s1, 2);
      return;
    }
    CPFDash(d0);
    var s2 := d0[..3] + "." + d0[3..6] + "." + d0[6..];
    if |d0| < 10 {
      assert forall j :: 0 <= j < |s2| ==> IsDigit(s2[j]) || s2[j] == '.';
      NoDashTail(s2, 2);
      return;
    }
    CPFTrim(d0);
  }

  /** `maskCPF` is the CPF layout of the first 11 digits of its input. */
  lemma MaskCPFClosedForm(value: string)
    ensures MaskCPF(value) == CPFLayout(Take(Digits(value), 11))
  {
    CPFStepsLayout(Digits(value));
  }

  lemma PhoneWrap(d0: string)
    requires AllDigits(d0) && |d0| >= 3
    ensures WrapAreaCode(d0) == "(" + d0[..2] + ") " + d0[2..]
  {
    RunInDigits(d0, 3);
    WrapAtStart(d0);
  }

  /** When the first three-digit run starts the string, the area code is its first two characters. */
  lemma WrapAtStart(s: string)
    requires FirstRun(s, 3, 0) == Some(0)
    ensures WrapAreaCode(s) == "(" + s[..2] + ") " + s[2..]
  {
    assert s[..0] + "(" == "(";
    assert s[0..2] == s[..2];
  }

  lemma PhoneDash(d0: string)
    requires AllDigits(d0) && |d0| >= 3
    ensures FirstRun("(" + d0[..2] + ") " + d0[2..], 6, 0) == if |d0| >= 8 then Some(5) else None
    ensures |d0| >= 8 ==>
      InsertInRun("(" + d0[..2] + ") " + d0[2..], 6, 5, "-") == "(" + d0[..2] + ") " + d0[2..7] + "-" + d0[7..]
  {
    var q := "(" + d0[..2] + ")";
    var w := "(" + d0[..2] + ") " + d0[2..];
    assert w == q + [' '] + d0[2..];
    assert FirstRun(q, 6, 0) == None;
    RunAfterSeparator(w, q, ' ', d0[2..], 6);
    if |d0| >= 8 {
      assert w[..10] == "(" + d0[..2] + ") " + d0[2..7];
      assert w[10..] == d0[7..];
    }
  }

  lemma PhoneTrim(d0: string)
    requires AllDigits(d0) && |d0| >= 8
    ensures TrimAfterDash("(" + d0[..2] + ") " + d0[2..7] + "-" + d0[7..], 4) == PhoneLayout(Take(d0, 11))
  {
    var p := "(" + d0[..2] + ") " + d0[2..7];
    var s := p + "-" + d0[7..];
    assert forall j :: 0 <= j < |p| ==> p[j] != '-' by {
      assert forall j :: 0 <= j < |p| ==> IsDigit(p[j]) || p[j] in "() ";
    }
    DashTailAfter(s, p, d0[7..], 4);
    if |d0| > 11 {
      var d := d0[..11];
      assert d[..2] == d0[..2] && d[2..7] == d0[2..7] && d[7..] == d0[7..11];
      assert s[..15] == p + "-" + d0[7..11];
    }
  }

  /** The phone steps on a string of digits lay out its first 11 digits. */
  lemma PhoneStepsLayout(d0: string)
    requires AllDigits(d0)
    ensures TrimAfterDash(InsertInRun(WrapAreaCode(d0), 6, 5, "-"), 4) == PhoneLayout(Take(d0, 11))
  {
    if |d0| < 3 {
      RunInDigits(d0, 3);
      RunInDigits(d0, 6);
      NoDashTail(d0, 4);
      return;
    }
    PhoneWrap(d0);
    PhoneDash(d0);
    var w := "(" + d0[..2] + ") " + d0[2..];
    if |d0| < 8 {
      assert forall j :: 0 <= j < |w| ==> IsDigit(w[j]) || w[j] in "() ";
      NoDashTail(w, 4);
      return;
    }
    PhoneTrim(d0);
  }

  /** `maskPhone` is the phone layout of the first 11 digits of its input. */
  lemma MaskPhoneClosedForm(value: string)
    ensures MaskPhone(value) == PhoneLayout(Take(Digits(value), 11))
  {
    PhoneStepsLayout(Digits(value));
  }

  // ------------------------------------------------------ layout properties

  lemma DigitsAroundSeparator(x: string, sep: string, y: string)
    requires forall i :: 0 <= i < |sep| ==> !IsDigit(sep[i])
    ensures Digits(x + sep + y) == Digits(x) + Digits(y)
  {
    var xs := x + sep;
    var dx := Digits(x);
    DigitsConcat(xs, y);
    DigitsConcat(x, sep);
    DigitsOfNonDigits(sep);
    assert Digits(xs) == dx + [];
    assert dx + [] == dx;
  }

  lemma DigitsOfJoin(x: string, sep: string, y: string)
    requires AllDigits(y) && forall i :: 0 <= i < |sep| ==> !IsDigit(sep[i])
    ensures Digits(x + sep + y) == Digits(x) + y
  {
    DigitsAroundSeparator(x, sep, y);
    DigitsOfAllDigits(y);
  }

  /** The separators of the CPF layout hold no digits: its digits are the ones laid out. */
  lemma CPFLayoutDigits(d: string)
    requires AllDigits(d)
    ensures Digits(CPFLayout(d)) == d
  {
    if |d| <= 3 {
      DigitsOfAllDigits(d);
      return;
    }
    var a := d[..3];
    DigitsOfAllDigits(a);
    if |d| <= 6 {
      DigitsOfJoin(a, ".", d[3..]);
      assert a + d[3..] == d;
      return;
    }
    var b := d[3..6];
    DigitsOfJoin(a, ".", b);
    var ab := a + "." + b;
    assert Digits(ab) == d[..6];
    if |d| <= 9 {
      DigitsOfJoin(ab, ".", d[6..]);
      assert d[..6] + d[6..] == d;
      return;
    }
    var c := d[6..9];
    DigitsOfJoin(ab, ".", c);
    assert d[..6] + c == d[..9];
    DigitsOfJoin(ab + "." + c, "-", d[9..]);
    assert d[..9] + d[9..] == d;
  }

  /** The separators of the phone layout hold no digits: its digits are the ones laid out. */
  lemma PhoneLayoutDigits(d: string)
    requires AllDigits(d)
    ensures Digits(PhoneLayout(d)) == d
  {
    if |d| <= 2 {
      DigitsOfAllDigits(d);
      return;
    }
    var a, b := d[..2], d[2..];
    assert AllDigits(a) && AllDigits(b);
    if |d| <= 7 {
      DigitsOfWrapped(a, b);
      assert a + b == d;
      return;
    }
    var b', c := d[2..7], d[7..];
    assert AllDigits(b') && AllDigits(c);
    DigitsOfWrappedDash(a, b', c);
    assert a + b' + c == d;
  }

  lemma DigitsOfWrapped(a: string, b: string)
    requires AllDigits(a) && AllDigits(b)
    ensures Digits("(" + a + ") " + b) == a + b
  {
    var pa := "(" + a;
    DigitsConcat("(", a);
    DigitsOfNonDigits("(");
    DigitsOfAllDigits(a);
    assert [] + a == a;
    assert Digits(pa) == a;
    DigitsOfJoin(pa, ") ", b);
  }

  lemma DigitsOfWrappedDash(a: string, b: string, c: string)
    requires AllDigits(a) && AllDigits(b) && AllDigits(c)
    ensures Digits("(" + a + ") " + b + "-" + c) == a + b + c
  {
    DigitsOfWrapped(a, b);
    DigitsOfJoin("(" + a + ") " + b, "-", c);
  }

  /**
   * What the CPF mask promises: its digits are the first 11 digits of the
   * input, so it fits the field's 14 characters; masking again changes
   * nothing; the empty input stays empty.
   */
  lemma MaskCPFProperties(value: string)
    ensures Digits(MaskCPF(value)) == Take(Digits(value), 11)
    ensures IsPrefix(Digits(MaskCPF(value)), Digits(value))
    ensures |MaskCPF(value)| <= 14
    ensures MaskCPF(MaskCPF(value)) == MaskCPF(value)
    ensures MaskCPF("") == ""
  {
    MaskCPFClosedForm(value);
    var d := Take(Digits(value), 11);
    CPFLayoutDigits(d);
    MaskCPFClosedForm(MaskCPF(value));
    MaskCPFClosedForm("");
  }

  /**
   * What the phone mask promises: its digits are the first 11 digits of the
   * input, so it fits the field's 15 characters; masking again changes
   * nothing; up to two digits stay as typed.
   */
  lemma MaskPhoneProperties(value: string)
    ensures Digits(MaskPhone(value)) == Take(Digits(value), 11)
    ensures IsPrefix(Digits(MaskPhone(value)), Digits(value))
    ensures |MaskPhone(value)| <= 15
    ensures MaskPhone(MaskPhone(value)) == MaskPhone(value)
    ensures |Digits(value)| <= 2 ==> MaskPhone(value) == Digits(value)
  {
    MaskPhoneClosedForm(value);
    var d := Take(Digits(value), 11);
    PhoneLayoutDigits(d);
    MaskPhoneClosedForm(MaskPhone(value));
  }

  /** A complete CPF or a partial one, once laid out, is left as it is by the mask. */
  lemma LayoutsAreFixedPoints(d: string)
    requires AllDigits(d) && |d| <= 11
    ensures MaskCPF(CPFLayout(d)) == CPFLayout(d)
    ensures MaskPhone(PhoneLayout(d)) == PhoneLayout(d)
  {
    CPFLayoutDigits(d);
    MaskCPFClosedForm(CPFLayout(d));
    PhoneLayoutDigits(d);
    MaskPhoneClosedForm(PhoneLayout(d));
  }

  // ---------------------------------------------------------- the form state

  datatype FormData = FormData(name: string, phone: string, email: string, cpf: string, unit: string)

  const EmptyForm := FormData("", "", "", "", "")

  /** The row the insert sends: the five form fields and nothing else. */
  datatype InsertPayload = InsertPayload(name: string, phone: string, email: string, cpf: string, unit: string)

  /** The outcome of the insert call. */
  datatype InsertOutcome = Inserted | InsertFailed(code: string) | ConnectionFailed

  const UniqueViolation := "23505"
  const DuplicateCPFMessage := "Este CPF já está cadastrado. Se você já se inscreveu, não é necessário se inscrever novamente."
  const InsertErrorMessage := "Erro ao processar inscrição. Tente novamente."
  const ConnectionMessage := "Erro de conexão. Verifique sua internet e tente novamente."

  /** The browser submits the form only when every `required` field is filled. */
  predicate AllFilled(f: FormData)
  {
    f.name != "" && f.phone != "" && f.email != "" && f.cpf != "" && f.unit != ""
  }

  /** The message `handleSubmit` stores for an outcome. */
  function SubmitError(outcome: InsertOutcome): (r: Option<string>)
    ensures r.None? <==> outcome.Inserted?
  {
    match outcome
    case Inserted => None
    case InsertFailed(code) => Some(if code == UniqueViolation then DuplicateCPFMessage else InsertErrorMessage)
    case ConnectionFailed => Some(ConnectionMessage)
  }

  /**
   * The three messages tell the outcomes apart: the duplicate-CPF message
   * appears exactly for the unique-constraint code, the generic one exactly
   * for any other insert error, the connection one exactly for a failed call.
   */
  lemma SubmitErrorDistinguishes(outcome: InsertOutcome)
    ensures SubmitError(outcome) == Some(DuplicateCPFMessage) <==> outcome == InsertFailed(UniqueViolation)
    ensures SubmitError(outcome) == Some(InsertErrorMessage) <==> outcome.InsertFailed? && outcome.code != UniqueViolation
    ensures SubmitError(outcome) == Some(ConnectionMessage) <==> outcome.ConnectionFailed?
  {
    assert |DuplicateCPFMessage| != |InsertErrorMessage|;
    assert |DuplicateCPFMessage| != |ConnectionMessage|;
    assert |InsertErrorMessage| != |ConnectionMessage|;
  }

  /** The CPF and phone fields hold text their masks leave unchanged. */
  predicate Masked(f: FormData)
  {
    MaskCPF(f.cpf) == f.cpf && MaskPhone(f.phone) == f.phone
  }

  lemma EmptyFieldsMasked()
    ensures Masked(EmptyForm)
  {
    MaskCPFClosedForm("");
    MaskPhoneClosedForm("");
  }

  class RegistrationForm {
    var data: FormData
    var submitted: bool
    var loading: bool
    var error: Option<string>

    /** The masked fields always hold masked text. */
    ghost predicate Valid()
      reads this
    {
      Masked(data) && !loading
    }

    constructor ()
      ensures Valid() && data == EmptyForm && !submitted && error == None
    {
      data, submitted, loading, error := EmptyForm, false, false, None;
      EmptyFieldsMasked();
    }

    method TypeName(text: string)
      requires Valid()
      modifies this
      ensures Valid() && data == old(data).(name := text)
      ensures submitted == old(submitted) && error == old(error)
    {
      data := data.(name := text);
    }

    method TypeEmail(text: string)
      requires Valid()
      modifies this
      ensures Valid() && data == old(data).(email := text)
      ensures submitted == old(submitted) && error == old(error)
    {
      data := data.(email := text);
    }

    method ChooseUnit(unit: string)
      requires Valid()
      modifies this
      ensures Valid() && data == old(data).(unit := unit)
      ensures submitted == old(submitted) && error == old(error)
    {
      data := data.(unit := unit);
    }

    /** `handlePhoneChange`: the field holds the masked text. */
    method TypePhone(text: string)
      requires Valid()
      modifies this
      ensures Valid() && data == old(data).(phone := MaskPhone(text))
      ensures submitted == old(submitted) && error == old(error)
    {
      MaskPhoneProperties(text);
      data := data.(phone := MaskPhone(text));
    }

    /** `handleCPFChange`: the field holds the masked text. */
    method TypeCPF(text: string)
      requires Valid()
      modifies this
      ensures Valid() && data == old(data).(cpf := MaskCPF(text))
      ensures submitted == old(submitted) && error == old(error)
    {
      MaskCPFProperties(text);
      data := data.(cpf := MaskCPF(text));
    }

    /**
     * A submit of the form, which is shown only before a success. With a
     * field empty the browser blocks it and nothing changes. Otherwise the
     * five fields are sent; a success clears them and shows the
     * confirmation, and any failure keeps what was typed and stores the
     * outcome's message.
     */
    method Submit(outcome: InsertOutcome) returns (payload: Option<InsertPayload>)
      requires Valid() && !submitted
      modifies this
      ensures Valid()
      ensures payload.Some? <==> AllFilled(old(data))
      ensures payload.Some? ==> payload.value == InsertPayload(old(data).name, old(data).phone, old(data).email, old(data).cpf, old(data).unit)
      ensures payload.None? ==> data == old(data) && !submitted && error == old(error)
      ensures payload.Some? ==> error == SubmitError(outcome)
      ensures payload.Some? && outcome.Inserted? ==> data == EmptyForm && submitted
      ensures !(payload.Some? && outcome.Inserted?) ==> data == old(data) && !submitted
    {
      if !AllFilled(data) {
        return None;
      }
      loading := true;
      error := None;
      payload := Some(InsertPayload(data.name, data.phone, data.email, data.cpf, data.unit));
      if outcome.Inserted? {
        EmptyFieldsMasked();
        data := EmptyForm;
        submitted := true;
      } else {
        error := SubmitError(outcome);
      }
      loading := false;
    }

    /** `clearForm`: empty fields, back to the form, no message. */
    method Clear()
      requires Valid()
      modifies this
      ensures Valid() && data == EmptyForm && !submitted && error == None
    {
      EmptyFieldsMasked();
      data, submitted, error := EmptyForm, false, None;
    }
  }
}
