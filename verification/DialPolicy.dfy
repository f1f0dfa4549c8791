/** The dial policy on destinations, and the cleaned number that is dialled
    (app/services/routing/fraud.py:28-137, app/api/calls.py:62-93). */
module DialPolicy {
  import opened Names
  import opened Text

  datatype Policy = Policy(allowed: Option<seq<string>>, allowInternational: bool, blockedPrefixes: seq<string>,
      domesticCc: string)

  datatype Class = Support | Internal | Domestic | International | InvalidNumber

  datatype Reason = Permitted | NotInAllowlist | InvalidDestination | BlockedPrefix | InternationalBlocked

  datatype Decision = Decision(allowed: bool, reason: Reason, kind: Class)

  datatype Normal = Intl(digits: string) | National(digits: string)

  /** Every character that is not a digit, removed. */
  function Digits(s: string): string {
    if s == [] then [] else if IsDigit(s[0]) then [s[0]] + Digits(s[1..]) else Digits(s[1..])
  }

  predicate HasPlus(s: string) {
    var t := Strip(s);
    t != [] && t[0] == '+'
  }

  /** Plus and a double zero are the international escapes; a single zero is the trunk prefix. */
  function Normalize(destination: string): Normal {
    var digits := Digits(Strip(destination));
    if HasPlus(destination) then Intl(digits)
    else if "00" <= digits then Intl(digits[2..])
    else National(digits)
  }

  const SUPPORT_NAME := "support"

  function ClassOf(n: Normal, cc: string): Class {
    if n.digits == [] then InvalidNumber
    else
      match n
      case Intl(digits) => if cc <= digits then Domestic else International
      case National(digits) => if |digits| <= 6 then Internal else Domestic
  }

  function Classify(destination: string, cc: string): Class {
    if Strip(destination) == SUPPORT_NAME then Support else ClassOf(Normalize(destination), cc)
  }

  predicate Blocked(digits: string, p: Policy) {
    exists i :: 0 <= i < |p.blockedPrefixes| && p.blockedPrefixes[i] <= digits
  }

  /** check_dial, in its fixed order. */
  function CheckDial(destination: string, p: Policy): Decision {
    var c := Classify(destination, p.domesticCc);
    if p.allowed.Some? && Strip(destination) !in p.allowed.value then Decision(false, NotInAllowlist, c)
    else if c == InvalidNumber then Decision(false, InvalidDestination, c)
    else if Blocked(Normalize(destination).digits, p) then Decision(false, BlockedPrefix, c)
    else if c == International && !p.allowInternational then Decision(false, InternationalBlocked, c)
    else Decision(true, Permitted, c)
  }

  // -------------------------------------------------------------- trimming

  lemma {:induction false} DigitsAppend(a: string, b: string)
    ensures Digits(a + b) == Digits(a) + Digits(b)
  {
    if a == [] {
      assert a + b == b;
    } else {
      assert (a + b)[0] == a[0] && (a + b)[1..] == a[1..] + b;
      DigitsAppend(a[1..], b);
    }
  }

  lemma {:induction false} StripLeftDigits(s: string)
    ensures Digits(StripLeft(s)) == Digits(s)
  {
    if s != [] && IsSpace(s[0]) {
      StripLeftDigits(s[1..]);
    }
  }

  lemma {:induction false} StripRightDigits(s: string)
    ensures Digits(StripRight(s)) == Digits(s)
    ensures s != [] && !IsSpace(s[0]) ==> StripRight(s) != [] && StripRight(s)[0] == s[0]
  {
    if s != [] && IsSpace(s[|s| - 1]) {
      var init := s[..|s| - 1];
      StripRightDigits(init);
      DigitsAppend(init, [s[|s| - 1]]);
      assert s == init + [s[|s| - 1]];
      assert Digits([s[|s| - 1]]) == [];
    }
  }

  lemma {:induction false} StripLeftStart(s: string)
    ensures StripLeft(s) != [] ==> !IsSpace(StripLeft(s)[0])
  {
    if s != [] && IsSpace(s[0]) {
      StripLeftStart(s[1..]);
    }
  }

  lemma StripFacts(s: string)
    ensures Digits(Strip(s)) == Digits(s)
    ensures s != [] && !IsSpace(s[0]) ==> Strip(s) != [] && Strip(s)[0] == s[0]
  {
    StripLeftDigits(s);
    StripRightDigits(StripLeft(s));
  }

  /** What is left of a destination for the policy without an allowlist: its digits, whether a
      plus leads, and whether it is the support name. */
  lemma SameReading(a: string, b: string, p: Policy)
    requires p.allowed.None? && Digits(a) == Digits(b) && HasPlus(a) == HasPlus(b)
    requires Strip(a) == SUPPORT_NAME <==> Strip(b) == SUPPORT_NAME
    ensures CheckDial(a, p) == CheckDial(b, p) && Classify(a, p.domesticCc) == Classify(b, p.domesticCc)
  {
    StripFacts(a);
    StripFacts(b);
  }

  // ----------------------------------------------------------- the two escapes

  lemma NotSupport(s: string)
    requires s != [] && (s[0] == '+' || IsDigit(s[0]))
    ensures Strip(s) != SUPPORT_NAME && (HasPlus(s) <==> s[0] == '+')
  {
    StripFacts(s);
    assert SUPPORT_NAME[0] == 's';
  }

  /** Without an allowlist `+X` and `00X` always get the same decision. */
  lemma PlusIsDoubleZero(x: string, p: Policy)
    requires p.allowed.None?
    ensures CheckDial("+" + x, p) == CheckDial("00" + x, p)
    ensures Classify("+" + x, p.domesticCc) == Classify("00" + x, p.domesticCc)
  {
    var a, b := "+" + x, "00" + x;
    NotSupport(a);
    NotSupport(b);
    StripFacts(a);
    StripFacts(b);
    DigitsAppend("+", x);
    DigitsAppend("0", "0");
    assert "00" == "0" + "0";
    DigitsAppend("00", x);
    assert Digits("+") == [] && Digits("0") == "0";
    assert Digits(b) == "00" + Digits(x);
    assert Digits(b)[2..] == Digits(x) == Digits(a);
    assert Normalize(a) == Normalize(b);
  }

  // ------------------------------------------------------------ what may be dialled

  /** No blocked prefix starts this number. */
  predicate Unblocked(number: string, p: Policy) {
    forall i :: 0 <= i < |p.blockedPrefixes| ==> !(p.blockedPrefixes[i] <= number)
  }

  lemma UnblockedIff(number: string, p: Policy)
    ensures Unblocked(number, p) <==> !Blocked(number, p)
  {}

  /** A number in international form: refused when it has no digits, when the allowlist leaves it
      out, when a blocked prefix starts it, or when it is foreign and that is barred. */
  lemma PlusDialsIff(s: string, p: Policy)
    requires s != [] && s[0] == '+'
    ensures var number, d := Digits(s), CheckDial(s, p);
      && (d.allowed <==>
           number != [] && (p.allowed.Some? ==> Strip(s) in p.allowed.value) && Unblocked(number, p)
           && (p.domesticCc <= number || p.allowInternational))
      && (number != [] ==> d.kind == if p.domesticCc <= number then Domestic else International)
  {
    NotSupport(s);
    StripFacts(s);
    assert Normalize(s) == Intl(Digits(s));
    UnblockedIff(Digits(s), p);
    hide Normalize, Strip, Digits, HasPlus, Blocked, Unblocked;
  }

  /** After a double zero the rest counts as the international number. */
  lemma DoubleZeroDialsIff(s: string, p: Policy)
    requires s != [] && IsDigit(s[0]) && "00" <= Digits(s)
    ensures var number, d := Digits(s)[2..], CheckDial(s, p);
      && (d.allowed <==>
           number != [] && (p.allowed.Some? ==> Strip(s) in p.allowed.value) && Unblocked(number, p)
           && (p.domesticCc <= number || p.allowInternational))
      && (number != [] ==> d.kind == if p.domesticCc <= number then Domestic else International)
  {
    NotSupport(s);
    StripFacts(s);
    assert Normalize(s) == Intl(Digits(s)[2..]);
    UnblockedIff(Digits(s)[2..], p);
    hide Normalize, Strip, Digits, HasPlus, Blocked, Unblocked;
  }

  /** A national number is never foreign; up to six digits it is an extension. */
  lemma NationalDialsIff(s: string, p: Policy)
    requires s != [] && IsDigit(s[0]) && !("00" <= Digits(s))
    ensures var number, d := Digits(s), CheckDial(s, p);
      && (d.allowed <==> (p.allowed.Some? ==> Strip(s) in p.allowed.value) && Unblocked(number, p))
      && d.kind == if |number| <= 6 then Internal else Domestic
  {
    NationalForm(s);
    UnblockedIff(Digits(s), p);
    hide Normalize, Strip, Digits, HasPlus, Blocked, Unblocked;
    assert Classify(s, p.domesticCc) == if |Digits(s)| <= 6 then Internal else Domestic;
    hide Classify;
  }

  lemma NationalForm(s: string)
    requires s != [] && IsDigit(s[0]) && !("00" <= Digits(s))
    ensures Normalize(s) == National(Digits(s)) && Digits(s) != [] && Strip(s) != SUPPORT_NAME
  {
    NotSupport(s);
    StripFacts(s);
    hide Strip;
  }

  // ---------------------------------------------------------------- formatting

  /** `b` is `a` with other characters than digits put in, or taken out, after the first. */
  predicate SameDigitsAfterFirst(a: string, b: string) {
    a != [] && b != [] && a[0] == b[0] && Digits(a[1..]) == Digits(b[1..])
  }

  /** For destinations that start with a plus or a digit, formatting after the first character
      changes neither decision nor classification. */
  lemma FormattingIsIgnored(a: string, b: string, p: Policy)
    requires p.allowed.None? && SameDigitsAfterFirst(a, b) && (a[0] == '+' || IsDigit(a[0]))
    ensures CheckDial(a, p) == CheckDial(b, p) && Classify(a, p.domesticCc) == Classify(b, p.domesticCc)
  {
    NotSupport(a);
    NotSupport(b);
    SameReading(a, b, p);
  }

  predicate IsFormatting(c: char) {
    IsSpace(c) || c in {'-', '(', ')'}
  }

  /** The number that is dialled: spaces, dashes and brackets removed. */
  function StripFormatting(s: string): string {
    if s == [] then [] else if IsFormatting(s[0]) then StripFormatting(s[1..]) else [s[0]] + StripFormatting(s[1..])
  }

  lemma {:induction false} CleanDigits(s: string)
    ensures Digits(StripFormatting(s)) == Digits(s)
  {
    if s != [] {
      CleanDigits(s[1..]);
      if !IsFormatting(s[0]) {
        var c := StripFormatting(s);
        assert c[0] == s[0] && c[1..] == StripFormatting(s[1..]);
      }
    }
  }

  /** So the number checked and the number dialled are judged the same, from such a start on. */
  lemma CleaningIsIgnored(s: string, p: Policy)
    requires p.allowed.None? && s != [] && (s[0] == '+' || IsDigit(s[0]))
    ensures CheckDial(StripFormatting(s), p) == CheckDial(s, p)
  {
    CleanDigits(s[1..]);
    var c := StripFormatting(s);
    assert c[0] == s[0] && c[1..] == StripFormatting(s[1..]);
    FormattingIsIgnored(c, s, p);
  }

  // Checked and dialled number normalize the same exactly when a leading plus of the cleaned
  // number leads the destination too.
  lemma CleanNormalIff(s: string)
    ensures Digits(StripFormatting(s)) == Digits(s)
    ensures Normalize(StripFormatting(s)) == Normalize(s) <==> (HasPlus(StripFormatting(s)) ==> HasPlus(s))
  {
    CleanDigits(s);
    StripFacts(s);
    StripFacts(StripFormatting(s));
    if HasPlus(s) {
      CleanKeepsPlus(s);
    }
    if "00" <= Digits(s) {
      assert |Digits(s)[2..]| < |Digits(s)|;
    }
  }

  /** Cleaning neither makes nor breaks the support name, and brings no plus to the front of a
      destination with digits. */
  predicate CleanReadsSame(s: string) {
    && (Strip(StripFormatting(s)) == SUPPORT_NAME <==> Strip(s) == SUPPORT_NAME)
    && (Digits(s) == [] || (HasPlus(StripFormatting(s)) ==> HasPlus(s)))
  }

  /** For any destination, the number dialled is judged like the number checked, under every policy
      without an allowlist, exactly when cleaning does not change how it reads. */
  lemma CleaningIsIgnoredIff(s: string)
    ensures (forall p: Policy :: p.allowed.None? ==> CheckDial(StripFormatting(s), p) == CheckDial(s, p)) <==>
      CleanReadsSame(s)
  {
    hide CheckDial, CleanReadsSame, StripFormatting;
    if CleanReadsSame(s) {
      forall p: Policy | p.allowed.None? ensures CheckDial(StripFormatting(s), p) == CheckDial(s, p) {
        ReadsAlike(s, p);
      }
    } else {
      ReadsApart(s);
    }
  }

  lemma ReadsAlike(s: string, p: Policy)
    requires CleanReadsSame(s) && p.allowed.None?
    ensures CheckDial(StripFormatting(s), p) == CheckDial(s, p)
  {
    CleanNormalIff(s);
    StripFacts(s);
    StripFacts(StripFormatting(s));
    hide Digits, StripFormatting, Strip;
  }

  lemma SupportHasNoDigits()
    ensures Digits(SUPPORT_NAME) == []
  {
    assert SUPPORT_NAME[1..] == "upport" && "upport"[1..] == "pport" && "pport"[1..] == "port" && "port"[1..] == "ort";
    assert "ort"[1..] == "rt" && "rt"[1..] == "t" && "t"[1..] == "";
  }

  // A policy that tells the two apart.
  lemma ReadsApart(s: string)
    requires !CleanReadsSame(s)
    ensures exists p: Policy :: p.allowed.None? && CheckDial(StripFormatting(s), p) != CheckDial(s, p)
  {
    CleanNormalIff(s);
    StripFacts(s);
    StripFacts(StripFormatting(s));
    SupportHasNoDigits();
    var d := Digits(s);
    hide Digits, StripFormatting, Strip;
    var p := Policy(None, true, [], if "00" <= d then d else d + "0");
    assert !(d + "0" <= d) && (|d| > 2 ==> !(d <= d[2..]));
    assert CheckDial(StripFormatting(s), p).kind != CheckDial(s, p).kind;
  }

  /** With allowlists, the two are judged alike under every policy exactly when trimming alone
      gives the same text. */
  lemma CleaningAndAllowlists(s: string)
    ensures (forall p: Policy :: CheckDial(StripFormatting(s), p) == CheckDial(s, p)) <==>
      Strip(StripFormatting(s)) == Strip(s)
  {
    CleanNormalIff(s);
    hide Digits, StripFormatting, Strip;
    if Strip(StripFormatting(s)) != Strip(s) {
      var p := Policy(Some([Strip(s)]), true, [], "");
      assert CheckDial(StripFormatting(s), p).reason == NotInAllowlist != CheckDial(s, p).reason;
    }
  }

  lemma {:induction false} CleanStripLeft(s: string)
    ensures StripFormatting(StripLeft(s)) == StripFormatting(s)
  {
    if s != [] && IsSpace(s[0]) {
      CleanStripLeft(s[1..]);
    }
  }

  lemma CleanKeepsPlus(s: string)
    requires HasPlus(s)
    ensures HasPlus(StripFormatting(s))
  {
    var t := StripLeft(s);
    StripLeftStart(s);
    StripRightDigits(t);
    CleanStripLeft(s);
    assert t != [] && t[0] == '+';
    assert StripFormatting(t)[0] == '+';
    StripFacts(StripFormatting(t));
  }

  /** Where the second half fails: with a dash before the plus, a foreign number is checked as a
      national one and permitted, while the number dialled would be refused. */
  lemma DashBeforePlus(d: string, p: Policy)
    requires d != [] && (forall i :: 0 <= i < |d| ==> IsDigit(d[i])) && !("00" <= d)
    requires p.allowed.None? && !p.allowInternational && !(p.domesticCc <= d)
    requires forall i :: 0 <= i < |p.blockedPrefixes| ==> !(p.blockedPrefixes[i] <= d)
    ensures CheckDial("-+" + d, p).reason == Permitted && CheckDial("-+" + d, p).kind in {Internal, Domestic}
    ensures CheckDial(StripFormatting("-+" + d), p) == Decision(false, InternationalBlocked, International)
  {
    hide Digits, StripFormatting, Strip, Blocked;
    DashReads(d);
    var s := "-+" + d;
    NotBlocked(d, p);
    assert Normalize(s) == National(d) && Normalize(StripFormatting(s)) == Intl(d);
    hide Normalize, HasPlus;
  }

  lemma NotBlocked(digits: string, p: Policy)
    requires forall i :: 0 <= i < |p.blockedPrefixes| ==> !(p.blockedPrefixes[i] <= digits)
    ensures !Blocked(digits, p)
  {}

  lemma DashReads(d: string)
    requires forall i :: 0 <= i < |d| ==> IsDigit(d[i])
    ensures var s := "-+" + d;
      && Digits(Strip(s)) == d && !HasPlus(s) && Strip(s) != SUPPORT_NAME
      && Digits(Strip(StripFormatting(s))) == d && HasPlus(StripFormatting(s))
      && Strip(StripFormatting(s)) != SUPPORT_NAME
  {
    var s, c := "-+" + d, "+" + d;
    assert s[1..] == c && c[1..] == d;
    AllDigits(d);
    StripFacts(s);
    StripFacts(c);
    assert SUPPORT_NAME[0] == 's';
    hide StripLeft, StripRight;
    assert StripFormatting(c) == c;
  }

  /** Where the first half fails: a dash inside the support name makes it an invalid number, while
      the number dialled is the support name. */
  lemma DashInSupport(p: Policy)
    requires p.allowed.None? && forall i :: 0 <= i < |p.blockedPrefixes| ==> p.blockedPrefixes[i] != []
    ensures CheckDial("sup-port", p) == Decision(false, InvalidDestination, InvalidNumber)
    ensures CheckDial(StripFormatting("sup-port"), p) == Decision(true, Permitted, Support)
  {
    hide Digits, StripFormatting, Strip;
    SupportReads();
  }

  lemma {:induction false} DashCleaned(a: string, b: string)
    requires (forall i :: 0 <= i < |a| ==> !IsFormatting(a[i])) && (forall i :: 0 <= i < |b| ==> !IsFormatting(b[i]))
    ensures StripFormatting(a + "-" + b) == a + b
  {
    var s := a + "-" + b;
    if a == [] {
      assert s[1..] == b;
      PlainCleaned(b);
    } else {
      assert s[0] == a[0] && s[1..] == a[1..] + "-" + b;
      DashCleaned(a[1..], b);
    }
  }

  lemma {:induction false} PlainCleaned(b: string)
    requires forall i :: 0 <= i < |b| ==> !IsFormatting(b[i])
    ensures StripFormatting(b) == b
  {
    if b != [] {
      PlainCleaned(b[1..]);
    }
  }

  lemma SupportReads()
    ensures Strip("sup-port") != SUPPORT_NAME && Digits(Strip("sup-port")) == []
    ensures Strip(StripFormatting("sup-port")) == SUPPORT_NAME && Digits(Strip(StripFormatting("sup-port"))) == []
  {
    hide Strip, Digits, StripFormatting;
    SupportHasNoDigits();
    CleanDigits("sup-port");
    StripPlain("sup-port");
    StripPlain("support");
    DashCleaned("sup", "port");
    assert "sup" + "-" + "port" == "sup-port" && "sup" + "port" == "support";
    assert "sup-port"[3] != "support"[3];
  }

  lemma {:induction false} AllDigits(d: string)
    requires forall i :: 0 <= i < |d| ==> IsDigit(d[i])
    ensures Digits(d) == d && StripFormatting(d) == d
  {
    if d != [] {
      AllDigits(d[1..]);
    }
  }
}
