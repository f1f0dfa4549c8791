/** The dialplans that the client renders, and what they say when they are read back
    (app/services/fusionpbx/client.py:638-712, 1325-1366). */
module Dialplans {
  import opened Names
  import opened Tables
  import IvrText

  // ------------------------------------------------------------------ rendering

  function Join(parts: seq<string>, sep: string): string {
    if parts == [] then ""
    else if |parts| == 1 then parts[0]
    else parts[0] + sep + Join(parts[1..], sep)
  }

  function BridgeData(d: string, members: seq<string>, strategy: string): string {
    Join(seq(|members|, i requires 0 <= i < |members| => "user/" + members[i] + "@" + d),
         if strategy == "simultaneous" then "," else "|")
  }

  function ConferencePlan(d: string, number: string): Xml {
    ConferenceXml(FeatureName(Conference, d, number), d, number, ConfRoom(d, number))
  }

  function RingGroupPlan(d: string, number: string, members: seq<string>, strategy: string, timeout: int): Xml {
    RingGroupXml(FeatureName(RingGroup, d, number), d, number, BridgeData(d, members, strategy), timeout)
  }

  function IvrPlan(d: string, number: string, options: map<string, string>, greeting: string): Xml
    requires IvrText.ValidOptions(options)
  {
    IvrText.SortedNonEmpty(options);
    var items := IvrText.SortedItems(options);
    IvrXml(FeatureName(Ivr, d, number), d, number, IvrText.Escape(greeting), IvrText.Digits(items),
        IvrText.NestAll(items))
  }

  // -------------------------------------------------------- cutting a dial string

  /** The pieces of a text between the separators, as a dial string is read by the switch. */
  function Cut(s: string, sep: char): (parts: seq<string>)
    ensures parts != []
  {
    if s == [] then [""]
    else
      var rest := Cut(s[1..], sep);
      if s[0] == sep then [""] + rest else [[s[0]] + rest[0]] + rest[1..]
  }

  lemma {:induction false} CutPiece(p: string, sep: char, rest: string)
    requires sep !in p
    ensures Cut(p, sep) == [p]
    ensures Cut(p + ([sep] + rest), sep) == [p] + Cut(rest, sep)
  {
    var s := p + ([sep] + rest);
    if p == [] {
      assert s == [sep] + rest && s[1..] == rest;
    } else {
      assert s[1..] == p[1..] + ([sep] + rest);
      CutPiece(p[1..], sep, rest);
      assert [p[0]] + p[1..] == p;
    }
  }

  /** Cutting undoes joining when no piece holds the separator. */
  lemma {:induction false} CutJoined(parts: seq<string>, sep: char)
    requires parts != [] && forall i :: 0 <= i < |parts| ==> sep !in parts[i]
    ensures Cut(Join(parts, [sep]), sep) == parts
  {
    if |parts| == 1 {
      CutPiece(parts[0], sep, "");
    } else {
      CutJoined(parts[1..], sep);
      CutPiece(parts[0], sep, Join(parts[1..], [sep]));
      assert parts[0] + [sep] + Join(parts[1..], [sep]) == parts[0] + ([sep] + Join(parts[1..], [sep]));
    }
  }

  /** No piece holds the separator; another character of the text is in some piece, and the text
      has the separator when it was cut. */
  lemma {:induction false} CutPieces(s: string, sep: char, c: char)
    ensures forall i :: 0 <= i < |Cut(s, sep)| ==> sep !in Cut(s, sep)[i]
    ensures c != sep && c in s ==> exists i :: 0 <= i < |Cut(s, sep)| && c in Cut(s, sep)[i]
    ensures |Cut(s, sep)| > 1 <==> sep in s
  {
    if s != [] {
      CutPieces(s[1..], sep, c);
      var rest, all := Cut(s[1..], sep), Cut(s, sep);
      if s[0] == sep {
        assert forall i :: 0 < i < |all| ==> all[i] == rest[i - 1];
        if c != sep && c in s {
          var i :| 0 <= i < |rest| && c in rest[i];
          assert c in all[i + 1];
        }
      } else {
        assert forall i :: 0 < i < |all| ==> all[i] == rest[i];
        if c != sep && c in s {
          if c == s[0] {
            assert c in all[0];
          } else {
            var i :| 0 <= i < |rest| && c in rest[i];
            assert c in all[i];
          }
        }
      }
    }
  }

  // ------------------------------------------------------- what a dialplan says

  /** The dial string offers the members in order, each at its own domain, between these separators. */
  predicate Offers(bridge: string, sep: char, d: string, members: seq<string>) {
    var pieces := Cut(bridge, sep);
    |pieces| == |members| && forall i :: 0 <= i < |members| ==> pieces[i] == "user/" + members[i] + "@" + d
  }

  /** The dialplan of a conference: callers of its domain who dial the number meet in its room. */
  predicate SaysConference(xml: Xml, d: string, number: string) {
    && xml.ConferenceXml? && xml.name == FeatureName(Conference, d, number) && xml.dom == d && xml.number == number
    && xml.room == ConfRoom(d, number)
  }

  /** The dialplan of a queue: callers of its domain who dial the number join it. */
  predicate SaysQueue(xml: Xml, d: string, number: string) {
    xml.QueueXml? && xml.name == FeatureName(CallQueue, d, number) && xml.dom == d && xml.number == number
  }

  function Separator(strategy: string): char {
    if strategy == "simultaneous" then ',' else '|'
  }

  /** The dialplan of a ring group: all members at once, or one after the other. */
  predicate SaysRing(xml: Xml, d: string, number: string, members: seq<string>, strategy: string, timeout: int) {
    && xml.RingGroupXml? && xml.name == FeatureName(RingGroup, d, number) && xml.dom == d && xml.number == number
    && Offers(xml.bridge, Separator(strategy), d, members) && xml.timeout == timeout
  }

  /** The dialplan of an IVR: its pattern accepts the mapped digits and nothing else, its one
      expression sends each of them to its own target, and it plays the greeting. */
  ghost predicate SaysIvr(xml: Xml, d: string, number: string, options: map<string, string>, greeting: string) {
    && xml.IvrXml? && xml.name == FeatureName(Ivr, d, number) && xml.dom == d && xml.number == number
    && IvrText.Unescape(xml.greeting) == greeting
    && (forall input :: IvrText.PatternAccepts(xml.digits, input) <==> input in options)
    && Sends(IvrText.Unescape(xml.target), options)
  }

  /** The target text is one expression, and it sends every mapped digit to its own target. */
  ghost predicate Sends(target: string, options: map<string, string>) {
    exists e :: IvrText.Read(target) == Some((e, [])) && forall c :: [c] in options ==>
      IvrText.Eval(e, c) == options[[c]]
  }

  // --------------------------------------------------- what is rendered says it

  function Piece(member: string, d: string): string {
    "user/" + member + "@" + d
  }

  lemma PlainPiece(member: string, d: string, sep: char)
    requires ValidToken(member) && ValidDomain(d) && sep in {',', '|'}
    ensures sep !in Piece(member, d)
  {
    LabelChars(d);
    hide ValidDomain;
    assert forall c :: c in member ==> IsDialChar(c);
    assert forall c :: c in d ==> IsDomainChar(c);
    assert sep !in "user/" && sep !in "@";
  }

  lemma BridgeOffers(d: string, members: seq<string>, strategy: string)
    requires ValidDomain(d) && members != [] && ValidTokens(members)
    ensures Offers(BridgeData(d, members, strategy), Separator(strategy), d, members)
  {
    hide ValidDomain, ValidToken;
    var pieces := seq(|members|, i requires 0 <= i < |members| => "user/" + members[i] + "@" + d);
    var sep := Separator(strategy);
    forall i | 0 <= i < |pieces| ensures sep !in pieces[i] {
      PlainPiece(members[i], d, sep);
    }
    hide Join, Cut;
    CutJoined(pieces, sep);
    assert [sep] == (if strategy == "simultaneous" then "," else "|");
  }

  /** A rendered ring group offers its members, at once or in turn. */
  lemma RingSays(d: string, number: string, members: seq<string>, strategy: string, timeout: int)
    requires ValidDomain(d) && members != [] && ValidTokens(members)
    ensures SaysRing(RingGroupPlan(d, number, members, strategy, timeout), d, number, members, strategy, timeout)
  {
    hide ValidDomain, ValidTokens, BridgeData, Offers, FeatureName;
    BridgeOffers(d, members, strategy);
  }

  /** A rendered IVR sends each mapped digit to its target, and no other digit anywhere. */
  lemma IvrSays(d: string, number: string, options: map<string, string>, greeting: string)
    requires IvrText.ValidOptions(options)
    ensures SaysIvr(IvrPlan(d, number, options, greeting), d, number, options, greeting)
  {
    hide IvrText.ValidOptions, FeatureName, IvrText.Escape, IvrText.Unescape, IvrText.Read, IvrText.Eval;
    hide IvrText.PatternAccepts, IvrText.SortedItems, IvrText.NestAll, IvrText.Digits, IvrText.Tree;
    var items := IvrText.SortedItems(options);
    IvrText.CompiledReadsBack(options);
    IvrText.EscapeRoundTrip(greeting);
    IvrText.EscapeRoundTrip(IvrText.NestAll(items));
    forall input ensures IvrText.PatternAccepts(IvrText.Digits(items), input) <==> input in options {
      IvrText.PatternIsExact(options, input);
    }
    forall c | [c] in options ensures IvrText.Eval(IvrText.Tree(items), c) == options[[c]] {
      IvrText.ChoiceReachesTarget(options, [c]);
    }
  }

  // ------------------------------------------------ and nothing else says the same

  lemma SamePiece(a: string, b: string, d: string)
    requires Piece(a, d) == Piece(b, d)
    ensures a == b
  {
    var s := "user/" + a + "@" + d;
    assert |a| == |b|;
    assert s[5..5 + |a|] == a && ("user/" + b + "@" + d)[5..5 + |a|] == b;
  }

  lemma SamePieces(bridge: string, sep: char, d: string, a: seq<string>, b: seq<string>)
    requires Offers(bridge, sep, d, a) && Offers(bridge, sep, d, b)
    ensures a == b
  {
    hide Cut;
    forall i | 0 <= i < |a| ensures a[i] == b[i] {
      SamePiece(a[i], b[i], d);
    }
  }

  // Cut at the wrong separator, a dial string is one piece.
  lemma OtherSeparator(bridge: string, sep: char, other: char, d: string, members: seq<string>)
    requires Offers(bridge, sep, d, members) && ValidDomain(d) && ValidTokens(members)
    requires other in {',', '|'} && other != sep
    ensures Cut(bridge, other) == [bridge] && (|members| > 1 <==> sep in bridge)
  {
    hide ValidDomain, ValidToken;
    CutPieces(bridge, sep, other);
    if other in bridge {
      var i :| 0 <= i < |Cut(bridge, sep)| && other in Cut(bridge, sep)[i];
      hide Cut;
      PlainPiece(members[i], d, other);
    } else {
      CutPiece(bridge, other, "");
    }
  }

  /** One dialplan is read as two ring groups of a number only when both have the same members in
      the same order, the same timeout and, unless there is a single member, the same way to ring. */
  lemma RingsAlikeIff(xml: Xml, d: string, number: string, members: seq<string>, strategy: string, timeout: int,
      members': seq<string>, strategy': string, timeout': int)
    requires ValidDomain(d) && ValidTokens(members) && ValidTokens(members')
    requires SaysRing(xml, d, number, members, strategy, timeout)
    ensures SaysRing(xml, d, number, members', strategy', timeout') <==>
      members' == members && timeout' == timeout
      && (|members| > 1 ==> (strategy' == "simultaneous" <==> strategy == "simultaneous"))
  {
    hide ValidDomain, ValidTokens, FeatureName, Offers;
    RingsAlike(xml.bridge, d, members, Separator(strategy), members', Separator(strategy'));
  }

  lemma RingsAlike(bridge: string, d: string, members: seq<string>, sep: char, members': seq<string>, sep': char)
    requires ValidDomain(d) && ValidTokens(members) && ValidTokens(members') && sep in {',', '|'} && sep' in {',', '|'}
    requires Offers(bridge, sep, d, members)
    ensures Offers(bridge, sep', d, members') <==> members' == members && (|members| > 1 ==> sep' == sep)
  {
    hide ValidDomain, ValidTokens;
    if sep' == sep {
      if Offers(bridge, sep, d, members') {
        hide Offers, Cut;
        SamePieces(bridge, sep, d, members, members');
      }
    } else {
      OtherSeparator(bridge, sep, sep', d, members);
      CutPieces(bridge, sep, sep);
      if |members| <= 1 {
        CutPiece(bridge, sep, "");
      }
      assert Cut(bridge, sep') == [bridge];
      hide Cut;
      if Offers(bridge, sep', d, members') {
        OtherSeparator(bridge, sep', sep, d, members');
        assert |members| == 1 && |members'| == 1;
        SamePiece(members[0], members'[0], d);
      }
    }
  }

  /** One dialplan is read as two IVRs of a number only when both map the same digits to the same
      targets and play the same greeting. */
  lemma IvrsAlikeIff(xml: Xml, d: string, number: string, options: map<string, string>, greeting: string,
      options': map<string, string>, greeting': string)
    requires IvrText.ValidOptions(options) && IvrText.ValidOptions(options')
    requires SaysIvr(xml, d, number, options, greeting)
    ensures SaysIvr(xml, d, number, options', greeting') <==> options' == options && greeting' == greeting
  {
    hide FeatureName, IvrText.Unescape, IvrText.Read, IvrText.Eval, IvrText.PatternAccepts;
    if SaysIvr(xml, d, number, options', greeting') {
      forall k ensures k in options' <==> k in options {
        assert IvrText.PatternAccepts(xml.digits, k) <==> k in options;
      }
      forall k | k in options ensures options'[k] == options[k] {
        assert [k[0]] == k;
      }
    }
  }
}
