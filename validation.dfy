/** The validators of middleware/validation.js: the password length rule, the
    email pattern `^\w+([.-]?\w+)*@\w+([.-]?\w+)*(\.\w{2,3})+$` as a predicate on
    strings, and `validateExamData`, which lists every failed rule in a fixed
    order. */
module Validation {
  import opened Common

  // ---------------------------------------------------------------------------
  // validatePassword

  /** The UTF-16 code units a character takes: two for a character outside the
      Basic Multilingual Plane, one otherwise. */
  function Utf16Units(c: char): (n: nat)
    ensures n == 1 || n == 2
    ensures n == 2 <==> c as int >= 0x1_0000
  {
    if c as int >= 0x1_0000 then 2 else 1
  }

  /** JavaScript's `s.length`, which counts UTF-16 code units. */
  function Utf16Length(s: string): (n: nat)
    ensures |s| <= n <= 2 * |s|
    ensures n == 0 <==> s == ""
  {
    if s == [] then 0 else Utf16Length(s[..|s| - 1]) + Utf16Units(s[|s| - 1])
  }

  /** `password && password.length >= 6`; an absent password is "". */
  predicate ValidatePassword(password: string)
    ensures ValidatePassword(password) <==> Utf16Length(password) >= 6
  {
    password != "" && Utf16Length(password) >= 6
  }

  /** The rule is the length test alone, and six characters always suffice while
      fewer than three never do. */
  lemma PasswordRule(password: string)
    ensures ValidatePassword(password) <==> Utf16Length(password) >= 6
    ensures |password| >= 6 ==> ValidatePassword(password)
    ensures ValidatePassword(password) ==> |password| >= 3
  {
  }

  /** Within the Basic Multilingual Plane the length is the number of characters. */
  lemma {:induction false} BmpLength(s: string)
    requires forall i :: 0 <= i < |s| ==> s[i] as int < 0x1_0000
    ensures Utf16Length(s) == |s|
  {
    if s != [] {
      BmpLength(s[..|s| - 1]);
    }
  }

  /** Three emoji make a valid password (six code units); five ASCII letters do not. */
  lemma PasswordExamples()
    ensures ValidatePassword("\U{1F600}\U{1F600}\U{1F600}")
    ensures !ValidatePassword("abcde")
  {
    BmpLength("abcde");
    var e := "\U{1F600}\U{1F600}\U{1F600}";
    assert e[..2][..1] == e[..1];
    assert e[..1][..0] == [];
    assert e[..|e| - 1] == e[..2];
  }

  // ---------------------------------------------------------------------------
  // validateEmail

  /** `\w`: an ASCII letter, digit or underscore. */
  predicate IsWordChar(c: char)
  {
    'a' <= c <= 'z' || 'A' <= c <= 'Z' || '0' <= c <= '9' || c == '_'
  }

  /** `[.-]`. */
  predicate IsSeparator(c: char)
  {
    c == '.' || c == '-'
  }

  /** `s[i]` and `s[i + 1]` are both separators. */
  predicate SeparatorPair(s: string, i: int)
    requires 0 <= i < |s| - 1
  {
    IsSeparator(s[i]) && IsSeparator(s[i + 1])
  }

  /** No two separators in a row. */
  predicate NoDoubleSeparator(s: string)
  {
    forall i :: 0 <= i < |s| - 1 ==> !SeparatorPair(s, i)
  }

  /** `\w+([.-]?\w+)*`: word characters with single separators between them, first
      and last characters being word characters. */
  predicate WordRun(s: string)
  {
    && |s| > 0 && IsWordChar(s[0]) && IsWordChar(s[|s| - 1])
    && (forall i :: 0 <= i < |s| ==> IsWordChar(s[i]) || IsSeparator(s[i]))
    && NoDoubleSeparator(s)
  }

  /** `\.\w{k-1}` at the start of `s`. */
  predicate Group(s: string, k: nat)
  {
    0 < k <= |s| && s[0] == '.' && forall i :: 1 <= i < k ==> IsWordChar(s[i])
  }

  /** `(\.\w{2,3})+`: one or more groups of a dot and two or three word characters. */
  predicate Suffix(s: string)
    decreases |s|
  {
    || (|s| >= 3 && Group(s, 3) && (|s| == 3 || Suffix(s[3..])))
    || (|s| >= 4 && Group(s, 4) && (|s| == 4 || Suffix(s[4..])))
  }

  /** The part after '@': `\w+([.-]?\w+)*(\.\w{2,3})+`. */
  predicate Domain(s: string)
  {
    exists j :: 0 < j < |s| && WordRun(s[..j]) && Suffix(s[j..])
  }

  /** `emailRegex.test(email)`; an absent email is "", which does not match. */
  predicate ValidateEmail(s: string)
    ensures ValidateEmail(s) ==> |s| >= 6 && IsWordChar(s[0]) && '@' in s
  {
    exists i :: 0 <= i < |s| && s[i] == '@' && WordRun(s[..i]) && Domain(s[i + 1..])
  }

  /** `s` ends with a dot and two or three word characters. */
  predicate TailGroup(s: string)
  {
    || (|s| >= 3 && s[|s| - 3] == '.' && IsWordChar(s[|s| - 2]) && IsWordChar(s[|s| - 1]))
    || (|s| >= 4 && s[|s| - 4] == '.' && IsWordChar(s[|s| - 3]) && IsWordChar(s[|s| - 2])
        && IsWordChar(s[|s| - 1]))
  }

  /** The characters of an accepted email other than its one '@'. */
  predicate EmailChar(c: char)
  {
    IsWordChar(c) || IsSeparator(c)
  }

  /** Joining two strings without two separators in a row, where at least one side
      of the seam is not a separator, leaves no two separators in a row. */
  lemma NoDoubleJoin(a: string, b: string)
    requires NoDoubleSeparator(a) && NoDoubleSeparator(b)
    requires |a| == 0 || |b| == 0 || !IsSeparator(a[|a| - 1]) || !IsSeparator(b[0])
    ensures NoDoubleSeparator(a + b)
  {
    var ab := a + b;
    forall i | 0 <= i < |ab| - 1
      ensures !SeparatorPair(ab, i)
    {
      if i + 1 < |a| {
        assert ab[i] == a[i] && ab[i + 1] == a[i + 1];
        assert !SeparatorPair(a, i);
      } else if i >= |a| {
        assert ab[i] == b[i - |a|] && ab[i + 1] == b[i + 1 - |a|];
        assert !SeparatorPair(b, i - |a|);
      } else {
        assert ab[i] == a[|a| - 1] && ab[i + 1] == b[0];
      }
    }
  }

  lemma TailGroupJoin(a: string, b: string)
    requires TailGroup(b)
    ensures TailGroup(a + b)
  {
    var ab, n := a + b, |a|;
    assert ab[|ab| - 1] == b[|b| - 1] && ab[|ab| - 2] == b[|b| - 2] && ab[|ab| - 3] == b[|b| - 3];
    if |b| >= 4 {
      assert ab[|ab| - 4] == b[|b| - 4];
    }
  }

  /** A suffix holds only dots and word characters, starts with a dot, has no two
      separators in a row, and ends with a dot and two or three word characters. */
  lemma {:induction false} SuffixShape(s: string)
    requires Suffix(s)
    ensures |s| >= 3 && s[0] == '.'
    ensures forall i :: 0 <= i < |s| ==> s[i] == '.' || IsWordChar(s[i])
    ensures NoDoubleSeparator(s)
    ensures TailGroup(s)
  {
    var k := if |s| >= 3 && Group(s, 3) && (|s| == 3 || Suffix(s[3..])) then 3 else 4;
    assert Group(s, k);
    var g := s[..k];
    assert forall i :: 0 <= i < k ==> g[i] == s[i];
    assert NoDoubleSeparator(g);
    if |s| > k {
      var t := s[k..];
      SuffixShape(t);
      assert s == g + t;
      NoDoubleJoin(g, t);
      TailGroupJoin(g, t);
      assert forall i :: k <= i < |s| ==> s[i] == t[i - k];
    } else {
      assert s == g;
    }
  }

  /** What a domain looks like: at least four characters, word characters at both
      ends, only word characters and separators, no two separators in a row, and
      the final group. */
  predicate DomainLike(t: string)
  {
    && |t| >= 4 && IsWordChar(t[0]) && IsWordChar(t[|t| - 1])
    && (forall k :: 0 <= k < |t| ==> EmailChar(t[k]))
    && NoDoubleSeparator(t)
    && TailGroup(t)
  }

  /** A host name followed by a suffix looks like a domain. */
  lemma HostSuffixShape(host: string, suffix: string)
    requires WordRun(host) && Suffix(suffix)
    ensures DomainLike(host + suffix)
  {
    SuffixShape(suffix);
    NoDoubleJoin(host, suffix);
    TailGroupJoin(host, suffix);
    var t := host + suffix;
    assert t[|t| - 1] == suffix[|suffix| - 1];
    forall k | 0 <= k < |t|
      ensures EmailChar(t[k])
    {
      if k >= |host| {
        assert t[k] == suffix[k - |host|];
      }
    }
  }

  lemma DomainShape(t: string)
    requires Domain(t)
    ensures DomainLike(t)
  {
    var j :| 0 < j < |t| && WordRun(t[..j]) && Suffix(t[j..]);
    assert t == t[..j] + t[j..];
    HostSuffixShape(t[..j], t[j..]);
  }

  /** `s[i]` is an '@' with a word character on each side, and every other
      character of `s` is a word character or a separator. */
  predicate AtSplit(s: string, i: int)
  {
    && 0 < i < |s| - 1 && s[i] == '@' && IsWordChar(s[i - 1]) && IsWordChar(s[i + 1])
    && forall j :: 0 <= j < |s| && j != i ==> EmailChar(s[j])
  }

  /** A local part, an '@' and a domain make a string of the accepted shape. */
  lemma LocalAtDomainShape(local: string, dom: string)
    requires WordRun(local) && DomainLike(dom)
    ensures var s := local + ['@'] + dom;
      && AtSplit(s, |local|) && Count(s, '@') == 1
      && IsWordChar(s[0]) && IsWordChar(s[|s| - 1])
      && NoDoubleSeparator(s) && TailGroup(s)
  {
    var front := local + ['@'];
    var s := front + dom;
    var i := |local|;
    NoDoubleJoin(local, ['@']);
    NoDoubleJoin(front, dom);
    TailGroupJoin(front, dom);
    assert s[0] == local[0] && s[i - 1] == local[i - 1] && s[i + 1] == dom[0];
    assert s[|s| - 1] == dom[|dom| - 1];
    forall k | 0 <= k < |s| && k != i
      ensures EmailChar(s[k])
    {
      if k < i {
        assert s[k] == local[k];
      } else {
        assert s[k] == dom[k - i - 1];
      }
    }
    OnlyOneAt(s, i);
  }

  /** What every accepted email looks like: exactly one '@' with a word character
      on each side, a word character first and last, never two separators in a
      row, and a final dot followed by two or three word characters. */
  lemma EmailShape(s: string)
    requires ValidateEmail(s)
    ensures exists i :: AtSplit(s, i)
    ensures Count(s, '@') == 1
    ensures IsWordChar(s[0]) && IsWordChar(s[|s| - 1])
    ensures NoDoubleSeparator(s)
    ensures TailGroup(s)
  {
    var i :| 0 <= i < |s| && s[i] == '@' && WordRun(s[..i]) && Domain(s[i + 1..]);
    var local, dom := s[..i], s[i + 1..];
    SplitAround(s, i);
    DomainShape(dom);
    LocalAtDomainShape(local, dom);
  }

  lemma SplitAround(s: string, i: nat)
    requires i < |s|
    ensures s == s[..i] + [s[i]] + s[i + 1..]
  {
  }

  lemma OnlyOneAt(s: string, i: nat)
    requires i < |s| && s[i] == '@'
    requires forall k :: 0 <= k < |s| && k != i ==> EmailChar(s[k])
    ensures Count(s, '@') == 1
  {
    var a, b := s[..i], s[i + 1..];
    assert '@' !in a by {
      forall m | 0 <= m < |a|
        ensures a[m] != '@'
      {
        assert a[m] == s[m];
      }
    }
    assert '@' !in b by {
      forall m | 0 <= m < |b|
        ensures b[m] != '@'
      {
        assert b[m] == s[i + 1 + m];
      }
    }
    SplitAround(s, i);
    CountAppend(a + [s[i]], b, '@');
    CountAppend(a, [s[i]], '@');
  }

  // ---------------------------------------------------------------------------
  // validateExamData

  /** A numeric field as the request body delivers it: missing (`undefined`),
      `null`, or a number. */
  datatype JsNumber = Undefined | Null | Number(value: int)

  /** The number a relational comparison converts a field to: `null` is 0 and
      `undefined` is NaN, given as `None`. */
  function ToNumber(x: JsNumber): (n: Option<int>)
    ensures n.None? <==> x.Undefined?
    ensures x.Null? ==> n == Some(0)
    ensures x.Number? ==> n == Some(x.value)
  {
    match x
    case Undefined => None
    case Null => Some(0)
    case Number(v) => Some(v)
  }

  /** JavaScript's `a > b` on two fields: false whenever either side is NaN. */
  predicate Greater(a: JsNumber, b: JsNumber)
  {
    ToNumber(a).Some? && ToNumber(b).Some? && ToNumber(a).value > ToNumber(b).value
  }

  /** The exam fields; absent strings are "". */
  datatype ExamData = ExamData(
    title: string,
    description: string,
    startDate: string,
    endDate: string,
    duration: JsNumber,
    totalQuestions: JsNumber,
    totalMarks: JsNumber,
    passingMarks: JsNumber)

  /** The rules, in the order they are checked. */
  datatype ExamError =
    | TitleRequired
    | DescriptionRequired
    | StartDateRequired
    | EndDateRequired
    | DurationInvalid
    | QuestionsInvalid
    | MarksInvalid
    | PassingExceedsTotal
  {
    function Message(): string
    {
      match this
      case TitleRequired => "Title is required"
      case DescriptionRequired => "Description is required"
      case StartDateRequired => "Start date is required"
      case EndDateRequired => "End date is required"
      case DurationInvalid => "Valid duration is required"
      case QuestionsInvalid => "Total questions must be greater than 0"
      case MarksInvalid => "Total marks must be greater than 0"
      case PassingExceedsTotal => "Passing marks cannot exceed total marks"
    }
  }

  /** Number of rules `validateExamData` checks. */
  const RuleCount: nat := 8

  /** The rules in checking order. */
  const Rules: seq<ExamError> := [TitleRequired, DescriptionRequired, StartDateRequired, EndDateRequired,
                                  DurationInvalid, QuestionsInvalid, MarksInvalid, PassingExceedsTotal]

  /** The rule checked at position `i`. */
  function RuleAt(i: nat): (e: ExamError)
    requires i < RuleCount
    ensures Rank(e) == i
  {
    Rules[i]
  }

  /** `!x || x <= 0`: `undefined`, `null`, zero or negative. */
  predicate NotPositive(x: JsNumber)
  {
    !x.Number? || x.value <= 0
  }

  /** Whether the data breaks a rule. `passingMarks > totalMarks` is false when
      either is `undefined`, and reads a `null` as 0. */
  predicate Breaks(d: ExamData, e: ExamError)
  {
    match e
    case TitleRequired => d.title == ""
    case DescriptionRequired => d.description == ""
    case StartDateRequired => d.startDate == ""
    case EndDateRequired => d.endDate == ""
    case DurationInvalid => NotPositive(d.duration)
    case QuestionsInvalid => NotPositive(d.totalQuestions)
    case MarksInvalid => NotPositive(d.totalMarks)
    case PassingExceedsTotal => Greater(d.passingMarks, d.totalMarks)
  }

  /** The rule `e` if the data breaks it, nothing otherwise. */
  function Listed(d: ExamData, e: ExamError): (es: seq<ExamError>)
    ensures |es| <= 1
  {
    if Breaks(d, e) then [e] else []
  }

  /** The rules among the first `k` that the data breaks, in checking order. */
  function Checked(d: ExamData, k: nat): (es: seq<ExamError>)
    requires k <= RuleCount
    ensures |es| <= k
  {
    if k == 0 then []
    else Checked(d, k - 1) + Listed(d, RuleAt(k - 1))
  }

  /** Every rule the data breaks, in checking order. */
  function ExamErrors(d: ExamData): seq<ExamError>
  {
    Checked(d, RuleCount)
  }

  /** The message of each error, in order. */
  function Messages(es: seq<ExamError>): (ms: seq<string>)
    ensures |ms| == |es|
  {
    if es == [] then []
    else Messages(es[..|es| - 1]) + [es[|es| - 1].Message()]
  }

  lemma MessagesSnoc(es: seq<ExamError>, e: ExamError)
    ensures Messages(es + [e]) == Messages(es) + [e.Message()]
  {
    assert (es + [e])[..|es|] == es;
  }

  /** Position of each rule in the checking order. */
  function Rank(e: ExamError): nat
  {
    match e
    case TitleRequired => 0
    case DescriptionRequired => 1
    case StartDateRequired => 2
    case EndDateRequired => 3
    case DurationInvalid => 4
    case QuestionsInvalid => 5
    case MarksInvalid => 6
    case PassingExceedsTotal => 7
  }

  predicate InRuleOrder(es: seq<ExamError>)
  {
    forall i, j :: 0 <= i < j < |es| ==> Rank(es[i]) < Rank(es[j])
  }

  /** Every rule sits at the position its rank gives. */
  lemma RuleListed(e: ExamError)
    ensures Rank(e) < RuleCount && RuleAt(Rank(e)) == e
  {
  }

  /** Among the first `k` rules, a rule is listed exactly when the data breaks it,
      and the list follows the checking order. */
  lemma CheckedSpec(d: ExamData, k: nat)
    requires k <= RuleCount
    ensures forall e :: e in Checked(d, k) <==> Breaks(d, e) && Rank(e) < k
    ensures InRuleOrder(Checked(d, k))
  {
    CheckedMembers(d, k);
    CheckedOrdered(d, k);
  }

  lemma {:induction false} CheckedMembers(d: ExamData, k: nat)
    requires k <= RuleCount
    ensures forall e :: e in Checked(d, k) <==> Breaks(d, e) && Rank(e) < k
  {
    if k > 0 {
      CheckedMembers(d, k - 1);
      forall e
        ensures e in Checked(d, k) <==> Breaks(d, e) && Rank(e) < k
      {
        RuleListed(e);
      }
    }
  }

  lemma {:induction false} CheckedOrdered(d: ExamData, k: nat)
    requires k <= RuleCount
    ensures InRuleOrder(Checked(d, k))
  {
    if k > 0 {
      CheckedOrdered(d, k - 1);
      var front, r := Checked(d, k - 1), RuleAt(k - 1);
      if Breaks(d, r) {
        CheckedMembers(d, k - 1);
        RuleAfter(front, r);
      }
    }
  }

  /** A rule ranked after every listed rule may follow them. */
  lemma RuleAfter(front: seq<ExamError>, r: ExamError)
    requires InRuleOrder(front)
    requires forall e :: e in front ==> Rank(e) < Rank(r)
    ensures InRuleOrder(front + [r])
  {
    var es := front + [r];
    forall i, j | 0 <= i < j < |es|
      ensures Rank(es[i]) < Rank(es[j])
    {
      assert es[i] == front[i] && front[i] in front;
      if j < |front| {
        assert es[j] == front[j];
      }
    }
  }

  /** Every rule is checked, failures are listed in the checking order with none
      repeated (so at most eight), the list is empty exactly when every rule holds,
      and the passing-marks error appears exactly when neither
      mark is missing and the passing mark, a `null` read as 0, is the larger. */
  lemma ExamErrorsSpec(d: ExamData)
    ensures var es := ExamErrors(d);
      && (forall e :: e in es <==> Breaks(d, e))
      && InRuleOrder(es)
      && |es| <= 8
      && (es == [] <==> forall e :: !Breaks(d, e))
      && (PassingExceedsTotal in es <==>
            && !d.passingMarks.Undefined? && !d.totalMarks.Undefined?
            && ToNumber(d.passingMarks).value > ToNumber(d.totalMarks).value)
  {
    var es := ExamErrors(d);
    CheckedSpec(d, RuleCount);
    forall e
      ensures e in es <==> Breaks(d, e)
    {
      RuleListed(e);
    }
    if es != [] {
      assert es[0] in es;
    }
  }

  /** A `null` total mark is both missing and 0: a passing mark of 5 breaks the
      total-marks rule and the passing-marks rule, while with the total mark left
      out only the first is broken. */
  lemma NullTotalMarks(d: ExamData)
    requires d.passingMarks == Number(5)
    ensures d.totalMarks == Null ==> Breaks(d, MarksInvalid) && Breaks(d, PassingExceedsTotal)
    ensures d.totalMarks == Undefined ==> Breaks(d, MarksInvalid) && !Breaks(d, PassingExceedsTotal)
  {
  }

  /** The message a rule contributes: its own when the data breaks it, none
      otherwise. */
  function Report(d: ExamData, e: ExamError): (ms: seq<string>)
    ensures ms == Messages(Listed(d, e))
  {
    if Breaks(d, e) then [e.Message()] else []
  }

  /** The messages of the first `k` rules that the data breaks, in checking order. */
  function MessagesUpTo(d: ExamData, k: nat): seq<string>
    requires k <= RuleCount
  {
    if k == 0 then [] else MessagesUpTo(d, k - 1) + Report(d, RuleAt(k - 1))
  }

  /** The messages `validateExamData` returns. */
  function ExamMessages(d: ExamData): seq<string>
  {
    MessagesUpTo(d, RuleCount)
  }

  /** The messages are those of the broken rules, one each and in the same order. */
  lemma {:induction false} MessagesUpToBroken(d: ExamData, k: nat)
    requires k <= RuleCount
    ensures MessagesUpTo(d, k) == Messages(Checked(d, k))
  {
    if k > 0 {
      MessagesUpToBroken(d, k - 1);
      var r := RuleAt(k - 1);
      MessagesAppend(Checked(d, k - 1), Listed(d, r));
    }
  }

  lemma MessagesAppend(es: seq<ExamError>, tail: seq<ExamError>)
    requires |tail| <= 1
    ensures Messages(es + tail) == Messages(es) + Messages(tail)
  {
    if tail == [] {
      assert es + tail == es;
    } else {
      MessagesSnoc(es, tail[0]);
      assert tail == [tail[0]];
    }
  }

  /** The checking order, position by position. */
  lemma RulePositions()
    ensures RuleAt(0) == TitleRequired && RuleAt(1) == DescriptionRequired
    ensures RuleAt(2) == StartDateRequired && RuleAt(3) == EndDateRequired
    ensures RuleAt(4) == DurationInvalid && RuleAt(5) == QuestionsInvalid
    ensures RuleAt(6) == MarksInvalid && RuleAt(7) == PassingExceedsTotal
  {
  }

  /** `ExamMessages` written out rule by rule. */
  lemma ExamMessagesUnrolled(d: ExamData)
    ensures Messages(ExamErrors(d)) ==
      [] + Report(d, TitleRequired) + Report(d, DescriptionRequired) + Report(d, StartDateRequired)
      + Report(d, EndDateRequired) + Report(d, DurationInvalid) + Report(d, QuestionsInvalid)
      + Report(d, MarksInvalid) + Report(d, PassingExceedsTotal)
  {
    RulePositions();
    assert MessagesUpTo(d, 1) == [] + Report(d, TitleRequired);
    assert MessagesUpTo(d, 2) == MessagesUpTo(d, 1) + Report(d, DescriptionRequired);
    assert MessagesUpTo(d, 3) == MessagesUpTo(d, 2) + Report(d, StartDateRequired);
    assert MessagesUpTo(d, 4) == MessagesUpTo(d, 3) + Report(d, EndDateRequired);
    assert MessagesUpTo(d, 5) == MessagesUpTo(d, 4) + Report(d, DurationInvalid);
    assert MessagesUpTo(d, 6) == MessagesUpTo(d, 5) + Report(d, QuestionsInvalid);
    assert MessagesUpTo(d, 7) == MessagesUpTo(d, 6) + Report(d, MarksInvalid);
    assert MessagesUpTo(d, 8) == MessagesUpTo(d, 7) + Report(d, PassingExceedsTotal);
    MessagesUpToBroken(d, RuleCount);
  }

  /** One check of `validateExamData`: when `rule` failed, its message is pushed
      onto the errors gathered so far. */
  method CheckRule(ghost d: ExamData, rule: ExamError, failed: bool, errors: seq<string>)
    returns (r: seq<string>)
    requires failed == Breaks(d, rule)
    ensures r == errors + Report(d, rule)
  {
    r := errors;
    if failed {
      r := r + [rule.Message()];
    }
  }

  /** Each test `validateExamData` writes is the rule it reports. */
  lemma TestsAreRules(d: ExamData)
    ensures (d.title == "") == Breaks(d, TitleRequired)
    ensures (d.description == "") == Breaks(d, DescriptionRequired)
    ensures (d.startDate == "") == Breaks(d, StartDateRequired)
    ensures (d.endDate == "") == Breaks(d, EndDateRequired)
    ensures (!d.duration.Number? || d.duration.value <= 0) == Breaks(d, DurationInvalid)
    ensures (!d.totalQuestions.Number? || d.totalQuestions.value <= 0) == Breaks(d, QuestionsInvalid)
    ensures (!d.totalMarks.Number? || d.totalMarks.value <= 0) == Breaks(d, MarksInvalid)
    ensures Greater(d.passingMarks, d.totalMarks) == Breaks(d, PassingExceedsTotal)
  {
  }

  /** `validateExamData`: each rule is tested in turn, in the fixed order, and a
      failure pushes its message; the result is the messages of `ExamErrors(d)`. */
  method ValidateExamData(d: ExamData) returns (errors: seq<string>)
    ensures errors == Messages(ExamErrors(d))
  {
    TestsAreRules(d);
    errors := [];
    errors := CheckRule(d, TitleRequired, d.title == "", errors);
    errors := CheckRule(d, DescriptionRequired, d.description == "", errors);
    errors := CheckRule(d, StartDateRequired, d.startDate == "", errors);
    errors := CheckRule(d, EndDateRequired, d.endDate == "", errors);
    errors := CheckRule(d, DurationInvalid, !d.duration.Number? || d.duration.value <= 0, errors);
    errors := CheckRule(d, QuestionsInvalid, !d.totalQuestions.Number? || d.totalQuestions.value <= 0, errors);
    errors := CheckRule(d, MarksInvalid, !d.totalMarks.Number? || d.totalMarks.value <= 0, errors);
    errors := CheckRule(d, PassingExceedsTotal, Greater(d.passingMarks, d.totalMarks), errors);
    ExamMessagesUnrolled(d);
  }
}
