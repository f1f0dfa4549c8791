/** Validation of domains and dial tokens, and the names built from them
    (app/services/fusionpbx/client.py). */
module Names {

  datatype Option<+T> = None | Some(value: T)

  /** Outcome of a client call: the exceptions a caller can see, as values. */
  datatype Result<+T> = Ok(value: T) | Unavailable | BadRequest

  // ---------------------------------------------------------------- validation

  predicate IsAlnum(c: char) {
    'A' <= c <= 'Z' || 'a' <= c <= 'z' || '0' <= c <= '9'
  }

  predicate IsDialChar(c: char) {
    IsAlnum(c) || c in {'_', '*', '#', '+', '-'}
  }

  predicate DialChars(s: string) {
    forall i :: 0 <= i < |s| ==> IsDialChar(s[i])
  }

  predicate ValidToken(s: string) {
    1 <= |s| <= 64 && DialChars(s)
  }

  predicate ValidTokens(s: seq<string>) {
    forall i :: 0 <= i < |s| ==> ValidToken(s[i])
  }

  predicate ValidLabel(s: string) {
    && 1 <= |s| <= 63
    && (forall i :: 0 <= i < |s| ==> IsAlnum(s[i]) || s[i] == '-')
    && IsAlnum(s[0]) && IsAlnum(s[|s| - 1])
  }

  function FirstDot(s: string): (i: nat)
    ensures i <= |s| && '.' !in s[..i]
    ensures i < |s| ==> s[i] == '.'
  {
    if s == [] || s[0] == '.' then 0 else 1 + FirstDot(s[1..])
  }

  predicate ValidLabels(s: string) {
    var i := FirstDot(s);
    if i == |s| then ValidLabel(s) else ValidLabel(s[..i]) && ValidLabels(s[i + 1..])
  }

  predicate ValidDomain(s: string) {
    1 <= |s| <= 255 && '.' in s && ValidLabels(s)
  }

  predicate IsDomainChar(c: char) {
    IsAlnum(c) || c == '-' || c == '.'
  }

  lemma {:induction false} LabelChars(s: string)
    requires ValidLabels(s)
    ensures |s| > 0 && IsAlnum(s[0]) && IsAlnum(s[|s| - 1])
    ensures forall i :: 0 <= i < |s| ==> IsDomainChar(s[i])
    decreases |s|
  {
    var i := FirstDot(s);
    if i < |s| {
      LabelChars(s[i + 1..]);
      assert forall j :: 0 <= j < i ==> s[j] == s[..i][j];
      assert forall j :: i < j < |s| ==> s[j] == s[i + 1..][j - (i + 1)];
    }
  }

  // ---------------------------------------------------------- dialplan names

  datatype Kind = Conference | RingGroup | Ivr | CallQueue

  function KindText(k: Kind): string {
    match k
    case Conference => "conference"
    case RingGroup => "ringgroup"
    case Ivr => "ivr"
    case CallQueue => "queue"
  }

  const NAME_PREFIX := "kamailio-"
  const ROUTING_NAME := NAME_PREFIX + "internal-to-domain"

  function Scoped(dom: string, number: string): string {
    dom + "-" + number
  }

  function FeatureName(k: Kind, dom: string, number: string): string {
    NAME_PREFIX + (KindText(k) + ("-" + Scoped(dom, number)))
  }

  lemma SamePrefix(p: string, a: string, b: string)
    requires p + a == p + b
    ensures a == b
  {
    assert a == (p + a)[|p|..] && b == (p + b)[|p|..];
  }

  // The kind is recovered from the name: the four kinds differ in their first letter.
  lemma KindFromName(k: Kind, dom: string, number: string, k': Kind, dom': string, number': string)
    requires FeatureName(k, dom, number) == FeatureName(k', dom', number')
    ensures k == k'
    ensures Scoped(dom, number) == Scoped(dom', number')
  {
    var x, y := "-" + Scoped(dom, number), "-" + Scoped(dom', number');
    SamePrefix(NAME_PREFIX, KindText(k) + x, KindText(k') + y);
    assert (KindText(k) + x)[0] == KindText(k)[0];
    assert (KindText(k') + y)[0] == KindText(k')[0];
    SamePrefix(KindText(k), x, y);
    SamePrefix("-", Scoped(dom, number), Scoped(dom', number'));
  }

  /** Within one domain the name determines kind and number, whatever the number holds. */
  lemma NameInjectiveInDomain(dom: string, k: Kind, number: string, k': Kind, number': string)
    requires FeatureName(k, dom, number) == FeatureName(k', dom, number')
    ensures k == k' && number == number'
  {
    KindFromName(k, dom, number, k', dom, number');
    SamePrefix(dom + "-", number, number');
  }

  lemma NotRouting(k: Kind, dom: string, number: string)
    ensures FeatureName(k, dom, number) != ROUTING_NAME
  {
    var rest, tail := KindText(k) + ("-" + Scoped(dom, number)), "internal-to-domain";
    assert rest[0] == KindText(k)[0] && rest[1] == KindText(k)[1];
    assert tail[0] == 'i' && tail[1] == 'n';
    hide Scoped;
    if FeatureName(k, dom, number) == ROUTING_NAME {
      SamePrefix(NAME_PREFIX, rest, tail);
    }
  }

  // ------------------------------------------------- names across two domains

  /** One domain continues the other with a hyphen and then only dial-token characters. */
  predicate HyphenExtends(a: string, b: string) {
    |a| + 2 <= |b| <= |a| + 63 && a + "-" <= b && DialChars(b[|a| + 1..])
  }

  predicate MayCollide(a: string, b: string) {
    HyphenExtends(a, b) || HyphenExtends(b, a)
  }

  // The shared step: equal "domain-number" texts with a shorter first domain.
  lemma SplitAtHyphen(a: string, n: string, b: string, m: string)
    requires Scoped(a, n) == Scoped(b, m) && |a| < |b|
    ensures a + "-" <= b
    ensures n == b[|a| + 1..] + "-" + m
  {
    var s := a + "-" + n;
    assert s[..|b|] == b && s[|a|] == '-';
    assert b[|a|] == '-';
    assert a + "-" == b[..|a| + 1];
    assert s[|a| + 1..] == n;
    assert (b + "-" + m)[|a| + 1..] == b[|a| + 1..] + "-" + m;
  }

  lemma CollisionForcesExtension(k: Kind, a: string, n: string, k': Kind, b: string, m: string)
    requires ValidDomain(a) && ValidDomain(b) && ValidToken(n) && ValidToken(m)
    requires FeatureName(k, a, n) == FeatureName(k', b, m) && |a| < |b|
    ensures HyphenExtends(a, b)
  {
    KindFromName(k, a, n, k', b, m);
    SplitAtHyphen(a, n, b, m);
    LabelChars(b);
    var p := b[|a| + 1..];
    assert forall i :: 0 <= i < |p| ==> p[i] == n[i];
    assert b[|b| - 1] != '-';
  }

  lemma SharedName(k: Kind, a: string, n: string, k': Kind, b: string, m: string)
    requires ValidDomain(a) && ValidDomain(b) && ValidToken(n) && ValidToken(m)
    requires FeatureName(k, a, n) == FeatureName(k', b, m)
    ensures a == b || MayCollide(a, b)
  {
    KindFromName(k, a, n, k', b, m);
    if |a| < |b| {
      CollisionForcesExtension(k, a, n, k', b, m);
    } else if |b| < |a| {
      CollisionForcesExtension(k', b, m, k, a, n);
    } else {
      assert Scoped(a, n)[..|a|] == a && Scoped(b, m)[..|a|] == b;
    }
  }

  /** For two different domains, some pair of valid numbers makes two features share one
      dialplan name exactly when one domain hyphen-extends the other. */
  lemma NamesCollideIff(a: string, b: string)
    requires ValidDomain(a) && ValidDomain(b) && a != b
    ensures MayCollide(a, b) <==>
            exists k: Kind, n, k': Kind, m ::
              ValidToken(n) && ValidToken(m) && FeatureName(k, a, n) == FeatureName(k', b, m)
  {
    if HyphenExtends(a, b) {
      CollidingNumbers(a, b);
      assert FeatureName(Ivr, a, b[|a| + 1..] + "-1") == FeatureName(Ivr, b, "1");
    }
    if HyphenExtends(b, a) {
      CollidingNumbers(b, a);
      assert FeatureName(Ivr, a, "1") == FeatureName(Ivr, b, a[|b| + 1..] + "-1");
    }
    forall k: Kind, n, k': Kind, m | ValidToken(n) && ValidToken(m) && FeatureName(k, a, n) == FeatureName(k', b, m)
      ensures MayCollide(a, b)
    {
      SharedName(k, a, n, k', b, m);
    }
  }

  lemma CollidingNumbers(a: string, b: string)
    requires HyphenExtends(a, b)
    ensures var n := b[|a| + 1..] + "-1";
      ValidToken(n) && ValidToken("1") && forall k :: FeatureName(k, a, n) == FeatureName(k, b, "1")
  {
    var p := b[|a| + 1..];
    var n := p + "-1";
    assert b == a + "-" + p;
    assert DialChars(n);
    assert Scoped(b, "1") == Scoped(a, n);
  }

  lemma HyphenInside(p: string, m: string)
    ensures '-' in p + "-" + m
  {
    assert (p + "-" + m)[|p|] == '-';
  }

  /** Hyphen-free numbers never collide: the name determines kind, domain and number. */
  lemma NameInjectiveHyphenFree(k: Kind, a: string, n: string, k': Kind, b: string, m: string)
    requires '-' !in n && '-' !in m
    requires FeatureName(k, a, n) == FeatureName(k', b, m)
    ensures k == k' && a == b && n == m
  {
    KindFromName(k, a, n, k', b, m);
    if |a| < |b| {
      SplitAtHyphen(a, n, b, m);
      HyphenInside(b[|a| + 1..], m);
    } else if |b| < |a| {
      SplitAtHyphen(b, m, a, n);
      HyphenInside(a[|b| + 1..], n);
    } else {
      assert Scoped(a, n)[..|a|] == a && Scoped(b, m)[..|a|] == b;
      NameInjectiveInDomain(a, k, n, k', m);
    }
  }

  // ---------------------------------------------------- numbers with one owner

  /** Among the domains `names`, no longer one reads the same text as one of its own numbers:
      `n` is a number of `d` and of nobody else. */
  ghost predicate Mine(names: iset<string>, d: string, n: string) {
    ValidToken(n) && forall b, m :: b in names && |b| > |d| && ValidToken(m) ==> Scoped(b, m) != Scoped(d, n)
  }

  /** Under such numbers a dialplan name belongs to one feature of one domain. */
  lemma OneOwner(names: iset<string>, k: Kind, a: string, n: string, k': Kind, b: string, m: string)
    requires a in names && b in names && Mine(names, a, n) && Mine(names, b, m)
    requires FeatureName(k, a, n) == FeatureName(k', b, m)
    ensures k == k' && a == b && n == m
  {
    KindFromName(k, a, n, k', b, m);
    assert |a| == |b|;
    assert Scoped(a, n)[..|a|] == a && Scoped(b, m)[..|b|] == b;
    NameInjectiveInDomain(a, k, n, k', m);
  }

  /** A number without a hyphen has one owner, whatever the domains. */
  lemma HyphenFreeMine(names: iset<string>, d: string, n: string)
    requires ValidToken(n) && '-' !in n
    ensures Mine(names, d, n)
  {
    forall b, m | b in names && |b| > |d| && ValidToken(m) ensures Scoped(b, m) != Scoped(d, n) {
      if Scoped(b, m) == Scoped(d, n) {
        SplitAtHyphen(d, n, b, m);
        HyphenInside(b[|d| + 1..], m);
      }
    }
  }

  /** Any number has, in a domain that no other one continues by a hyphen. */
  lemma ApartMine(names: iset<string>, d: string, n: string)
    requires ValidToken(n) && ValidDomain(d)
    requires forall b :: b in names ==> ValidDomain(b) && !HyphenExtends(d, b)
    ensures Mine(names, d, n)
  {
    forall b, m | b in names && |b| > |d| && ValidToken(m) ensures Scoped(b, m) != Scoped(d, n) {
      if Scoped(b, m) == Scoped(d, n) {
        assert FeatureName(Ivr, d, n) == FeatureName(Ivr, b, m);
        CollisionForcesExtension(Ivr, d, n, Ivr, b, m);
      }
    }
  }

  /** A number that is not its domain's alone shares its dialplan names with another domain. */
  lemma SharedOtherwise(names: iset<string>, d: string, n: string)
    requires ValidToken(n) && !Mine(names, d, n)
    ensures exists b, m ::
      b in names && b != d && ValidToken(m) && forall k :: FeatureName(k, d, n) == FeatureName(k, b, m)
  {
    var b, m :| b in names && |b| > |d| && ValidToken(m) && Scoped(b, m) == Scoped(d, n);
    assert b != d && forall k :: FeatureName(k, d, n) == FeatureName(k, b, m);
  }

  // --------------------------------------------------------- conference rooms

  function Underscored(dom: string): (s: string)
    ensures |s| == |dom|
    ensures forall i :: 0 <= i < |s| ==> s[i] == if dom[i] == '.' then '_' else dom[i]
  {
    seq(|dom|, i requires 0 <= i < |dom| => if dom[i] == '.' then '_' else dom[i])
  }

  function ConfRoom(dom: string, number: string): string {
    Scoped(Underscored(dom), number)
  }

  /** A room name forgets the dots, so here the continuation may hold further labels. */
  predicate RoomExtends(a: string, b: string) {
    |a| + 2 <= |b| <= |a| + 63 && a + "-" <= b
  }

  lemma UnderscoredInjective(a: string, b: string)
    requires ValidDomain(a) && ValidDomain(b)
    requires Underscored(a) == Underscored(b)
    ensures a == b
  {
    LabelChars(a);
    LabelChars(b);
    assert |a| == |Underscored(a)| == |b|;
    forall i | 0 <= i < |a| ensures a[i] == b[i] {
      assert Underscored(a)[i] == Underscored(b)[i];
      assert IsDomainChar(a[i]) && IsDomainChar(b[i]);
    }
  }

  lemma UnderscoredPrefix(a: string, b: string)
    requires ValidDomain(a) && ValidDomain(b) && |a| < |b|
    ensures Underscored(a) + "-" <= Underscored(b) <==> a + "-" <= b
  {
    LabelChars(a);
    LabelChars(b);
    var ua, ub := Underscored(a), Underscored(b);
    if ua + "-" <= ub {
      assert ub[|a|] == (ua + "-")[|a|] == '-';
      forall i | 0 <= i < |a| ensures a[i] == b[i] {
        assert ub[i] == (ua + "-")[i] == ua[i];
        assert IsDomainChar(a[i]) && IsDomainChar(b[i]);
      }
      assert b[..|a| + 1] == a + "-";
    }
    if a + "-" <= b {
      assert b[..|a| + 1] == a + "-";
      assert forall i :: 0 <= i < |a| ==> b[i] == (a + "-")[i] == a[i];
      assert b[|a|] == (a + "-")[|a|] == '-';
      assert ub[..|a| + 1] == ua + "-";
    }
  }

  lemma RoomClashForcesExtension(a: string, n: string, b: string, m: string)
    requires ValidDomain(a) && ValidDomain(b) && ValidToken(n) && ValidToken(m)
    requires ConfRoom(a, n) == ConfRoom(b, m) && |a| < |b|
    ensures RoomExtends(a, b)
  {
    SplitAtHyphen(Underscored(a), n, Underscored(b), m);
    UnderscoredPrefix(a, b);
    LabelChars(b);
    assert b[..|a| + 1] == a + "-";
    assert b[|a|] == (a + "-")[|a|] == '-';
    assert b[|b| - 1] != '-';
  }

  lemma RoomClashExists(a: string, b: string)
    requires ValidDomain(a) && ValidDomain(b) && RoomExtends(a, b)
    ensures var n := Underscored(b)[|a| + 1..] + "-1";
      ValidToken(n) && ValidToken("1") && ConfRoom(a, n) == ConfRoom(b, "1")
  {
    UnderscoredPrefix(a, b);
    LabelChars(b);
    var p := Underscored(b)[|a| + 1..];
    var n := p + "-1";
    forall i | 0 <= i < |p| ensures IsDialChar(p[i]) {
      assert p[i] == Underscored(b)[|a| + 1 + i] && IsDomainChar(b[|a| + 1 + i]);
    }
    assert DialChars(n);
    assert Underscored(b) == Underscored(a) + "-" + p;
    assert ConfRoom(b, "1") == Underscored(a) + "-" + n;
  }

  /** The same question for conference rooms has a wider answer: two customers' rooms can
      merge exactly when one domain continues the other after a hyphen, dots included. */
  lemma RoomsMergeIff(a: string, b: string)
    requires ValidDomain(a) && ValidDomain(b) && a != b
    ensures RoomExtends(a, b) || RoomExtends(b, a) <==>
            exists n, m :: ValidToken(n) && ValidToken(m) && ConfRoom(a, n) == ConfRoom(b, m)
  {
    if RoomExtends(a, b) {
      RoomClashExists(a, b);
    }
    if RoomExtends(b, a) {
      RoomClashExists(b, a);
      var n := Underscored(a)[|b| + 1..] + "-1";
      assert ConfRoom(a, "1") == ConfRoom(b, n);
    }
    forall n, m | ValidToken(n) && ValidToken(m) && ConfRoom(a, n) == ConfRoom(b, m)
      ensures RoomExtends(a, b) || RoomExtends(b, a)
    {
      if |a| < |b| {
        RoomClashForcesExtension(a, n, b, m);
      } else if |b| < |a| {
        RoomClashForcesExtension(b, m, a, n);
      } else {
        assert ConfRoom(a, n)[..|a|] == Underscored(a) && ConfRoom(b, m)[..|a|] == Underscored(b);
        UnderscoredInjective(a, b);
      }
    }
  }

  lemma {:induction false} FirstDotAt(s: string, i: nat)
    requires i <= |s| && '.' !in s[..i] && (i < |s| ==> s[i] == '.')
    ensures FirstDot(s) == i
  {
    if i > 0 {
      assert s[..i][0] == s[0] && s[1..][..i - 1] == s[..i][1..];
      FirstDotAt(s[1..], i - 1);
    }
  }

  lemma JoinedLabels(a: string, b: string)
    requires ValidLabel(a) && ValidLabels(b)
    ensures ValidLabels(a + "." + b) && '.' in a + "." + b
  {
    var s := a + "." + b;
    assert s[|a|] == '.' && s[..|a|] == a && s[|a| + 1..] == b;
    FirstDotAt(s, |a|);
  }

  lemma OneLabel(a: string)
    requires ValidLabel(a)
    ensures ValidLabels(a)
  {
    assert a[..|a|] == a;
    FirstDotAt(a, |a|);
  }

  lemma JoinedDomain(a: string, b: string)
    requires ValidLabel(a) && ValidLabels(b) && |a| + |b| < 255
    ensures ValidDomain(a + "." + b)
  {
    hide ValidLabel, ValidLabels;
    JoinedLabels(a, b);
  }

  lemma ExampleDomains()
    ensures ValidDomain("a.b") && ValidDomain("a.b-c.d")
  {
    hide ValidDomain, ValidLabels;
    OneLabel("b");
    OneLabel("d");
    assert ValidLabel("a") && ValidLabel("b-c");
    hide ValidLabel;
    JoinedLabels("b-c", "d");
    assert "b-c" + "." + "d" == "b-c.d";
    JoinedDomain("a", "b");
    assert "a" + "." + "b" == "a.b";
    JoinedDomain("a", "b-c.d");
    assert "a" + "." + "b-c.d" == "a.b-c.d";
  }

  // Two domains whose rooms merge although no dialplan name is shared.
  lemma RoomsMergeWithoutNameClash()
    ensures ValidDomain("a.b") && ValidDomain("a.b-c.d") && ValidToken("c_d-1") && ValidToken("1")
    ensures ConfRoom("a.b", "c_d-1") == ConfRoom("a.b-c.d", "1")
    ensures !MayCollide("a.b", "a.b-c.d")
  {
    hide ValidDomain;
    ExampleDomains();
    ExampleRooms();
    NoCollision("a.b", "a.b-c.d", 5);
  }

  lemma ExampleRooms()
    ensures ConfRoom("a.b", "c_d-1") == ConfRoom("a.b-c.d", "1")
  {
    assert Underscored("a.b") == "a_b";
    assert Underscored("a.b-c.d") == "a_b-c_d";
    assert Scoped("a_b", "c_d-1") == "a_b-c_d-1" == Scoped("a_b-c_d", "1");
  }

  // A dot after the hyphen is no dial-token character.
  lemma NoCollision(a: string, b: string, i: nat)
    requires |a| < i < |b| && b[i] == '.'
    ensures !MayCollide(a, b)
  {
    assert b[|a| + 1..][i - |a| - 1] == '.' && !IsDialChar('.');
  }
}
