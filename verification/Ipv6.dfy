/** The texts that Rust's `Ipv6Addr` parses: RFC 4291, section 2.2, with an embedded IPv4 address. */
module Ipv6 {
  import opened Base
  import opened Splitting

  type Text = seq<byte>

  const COLON: byte := 58
  const DOT: byte := 46

  predicate IsDigit(b: byte) {
    48 <= b <= 57
  }

  predicate IsHexDigit(b: byte) {
    IsDigit(b) || 65 <= b <= 70 || 97 <= b <= 102
  }

  function Decimal(s: Text): nat
    requires forall i :: 0 <= i < |s| ==> IsDigit(s[i])
  {
    if s == [] then 0
    else
      assert IsDigit(s[|s| - 1]);
      Decimal(s[..|s| - 1]) * 10 + (s[|s| - 1] as int - 48)
  }

  /** One to four hexadecimal digits. */
  predicate IsGroup(part: Text) {
    1 <= |part| <= 4 && forall i :: 0 <= i < |part| ==> IsHexDigit(part[i])
  }

  /** A decimal number up to 255, without leading zeros. */
  predicate IsOctet(part: Text) {
    && 1 <= |part| <= 3 && (forall i :: 0 <= i < |part| ==> IsDigit(part[i]))
    && (|part| > 1 ==> part[0] != 48)
    && Decimal(part) <= 255
  }

  predicate IsQuad(part: Text) {
    var octets := Split(part, DOT);
    |octets| == 4 && forall i :: 0 <= i < 4 ==> IsOctet(octets[i])
  }

  predicate AllGroups(parts: seq<Text>) {
    forall i :: 0 <= i < |parts| ==> IsGroup(parts[i])
  }

  /** How many 16-bit groups a run of parts stands for; only its last may be an IPv4 address, for two. */
  function Width(text: Text, quad: bool): Option<nat> {
    if text == [] then Some(0)
    else
      var parts := Split(text, COLON);
      var init, last := parts[..|parts| - 1], parts[|parts| - 1];
      if !AllGroups(init) then None
      else if IsGroup(last) then Some(|parts|)
      else if quad && IsQuad(last) then Some(|parts| + 1)
      else None
  }

  /** The position of the first double colon, or the length. */
  function Gap(text: Text): (i: nat)
    ensures i <= |text| && (i < |text| ==> i + 2 <= |text| && text[i] == text[i + 1] == COLON)
  {
    if |text| < 2 then |text|
    else if text[0] == COLON && text[1] == COLON then 0
    else 1 + Gap(text[1..])
  }

  /** Eight groups, or fewer around one double colon that stands for at least one. */
  predicate IsIpv6(text: Text) {
    var i := Gap(text);
    if i == |text| then Width(text, true) == Some(8)
    else
      var head, tail := Width(text[..i], false), Width(text[i + 2..], true);
      head.Some? && tail.Some? && head.value + tail.value <= 7
  }

  // ---------------------------------------------------------------- what such texts look like

  predicate IsPlain(b: byte) {
    IsHexDigit(b) || b == COLON || b == DOT
  }

  /** Parts and separators that are plain make a plain text. */
  lemma {:induction false} JoinIsPlain(parts: seq<Text>, sep: byte)
    requires parts != [] && IsPlain(sep)
    requires forall k :: 0 <= k < |parts| ==> forall b :: b in parts[k] ==> IsPlain(b)
    ensures forall b :: b in Join(parts, sep) ==> IsPlain(b)
  {
    if |parts| == 1 {
    } else {
      JoinIsPlain(parts[1..], sep);
    }
  }

  lemma QuadIsPlain(part: Text)
    requires IsQuad(part)
    ensures forall b :: b in part ==> IsPlain(b)
  {
    JoinSplit(part, DOT);
    JoinIsPlain(Split(part, DOT), DOT);
  }

  lemma WidthIsPlain(text: Text, quad: bool)
    requires Width(text, quad).Some?
    ensures forall b :: b in text ==> IsPlain(b)
  {
    hide Width, IsPlain, Split;
    if text != [] {
      JoinSplit(text, COLON);
      PartsOfWidth(text, quad);
      SeparatorIsPlain();
      JoinIsPlain(Split(text, COLON), COLON);
    }
  }

  lemma SeparatorIsPlain()
    ensures IsPlain(COLON)
  {
  }

  lemma PartsOfWidth(text: Text, quad: bool)
    requires text != [] && Width(text, quad).Some?
    ensures forall k :: 0 <= k < |Split(text, COLON)| ==> forall b :: b in Split(text, COLON)[k] ==> IsPlain(b)
  {
    hide IsQuad, Split, Gap;
    var parts := Split(text, COLON);
    var last := parts[|parts| - 1];
    if !IsGroup(last) {
      QuadIsPlain(last);
    }
    assert forall k :: 0 <= k < |parts| - 1 ==> parts[..|parts| - 1][k] == parts[k];
  }

  /** A literal consists of hexadecimal digits, colons and dots, and has a colon: it is never a host name. */
  lemma LiteralIsPlain(text: Text)
    requires IsIpv6(text)
    ensures COLON in text && forall b :: b in text ==> IsPlain(b)
  {
    var i := Gap(text);
    if i == |text| {
      WidthIsPlain(text, true);
      if COLON !in text {
        assert text == Join([text], COLON);
        SplitJoin([text], COLON);
      }
    } else {
      WidthIsPlain(text[..i], false);
      WidthIsPlain(text[i + 2..], true);
      assert text == text[..i] + [COLON, COLON] + text[i + 2..];
    }
  }

  // ---------------------------------------------------------------- the grammar, said in terms of joined parts

  /** Four octets between dots. */
  ghost predicate IsDotted(part: Text) {
    exists octets: seq<Text> ::
      |octets| == 4 && (forall i :: 0 <= i < 4 ==> IsOctet(octets[i])) && part == Join(octets, DOT)
  }

  /** Parts that stand for n groups: groups only, or groups and a dotted address for the last two. */
  ghost predicate StandFor(parts: seq<Text>, n: nat, quad: bool) {
    && parts != [] && (forall i :: 0 <= i < |parts| - 1 ==> IsGroup(parts[i]))
    && var last := parts[|parts| - 1];
       (IsGroup(last) && n == |parts|) || (quad && IsDotted(last) && n == |parts| + 1)
  }

  /** A text that stands for n groups. */
  ghost predicate Spells(text: Text, n: nat, quad: bool) {
    || (text == [] && n == 0)
    || exists parts: seq<Text> :: StandFor(parts, n, quad) && text == Join(parts, COLON)
  }

  /** Eight groups; or at most seven around a double colon. */
  ghost predicate IsLiteral(text: Text) {
    || Spells(text, 8, true)
    || exists head: Text, tail: Text, m: nat, n: nat ::
         text == head + [COLON, COLON] + tail && Spells(head, m, false) && Spells(tail, n, true) && m + n <= 7
  }

  lemma OctetHasNoDot(part: Text)
    requires IsOctet(part)
    ensures DOT !in part && COLON !in part && part != []
  {
  }

  lemma DottedIsQuad(part: Text)
    ensures IsQuad(part) <==> IsDotted(part)
  {
    hide IsOctet;
    JoinSplit(part, DOT);
    forall octets: seq<Text> |
      |octets| == 4 && (forall i :: 0 <= i < 4 ==> IsOctet(octets[i])) && part == Join(octets, DOT)
      ensures octets == Split(part, DOT)
    {
      forall k | 0 <= k < 4 ensures DOT !in octets[k] {
        OctetHasNoDot(octets[k]);
      }
      SplitJoin(octets, DOT);
    }
  }

  lemma {:induction false} JoinHas<T>(parts: seq<seq<T>>, sep: T, x: T)
    requires parts != [] && x in Join(parts, sep)
    ensures x == sep || exists k :: 0 <= k < |parts| && x in parts[k]
  {
    if |parts| == 1 {
    } else {
      if x in Join(parts[1..], sep) {
        JoinHas(parts[1..], sep, x);
      }
    }
  }

  lemma DottedHasNoColon(part: Text)
    requires IsDotted(part)
    ensures COLON !in part && part != []
  {
    hide IsOctet;
    var octets: seq<Text> :|
      |octets| == 4 && (forall i :: 0 <= i < 4 ==> IsOctet(octets[i])) && part == Join(octets, DOT);
    forall k | 0 <= k < 4 ensures COLON !in octets[k] && octets[k] != [] {
      OctetHasNoDot(octets[k]);
    }
    if COLON in part {
      JoinHas(octets, DOT, COLON);
    }
  }

  lemma DottedIsNoGroup(part: Text)
    requires IsDotted(part)
    ensures !IsGroup(part)
  {
    hide IsOctet;
    var octets: seq<Text> :|
      |octets| == 4 && (forall i :: 0 <= i < 4 ==> IsOctet(octets[i])) && part == Join(octets, DOT);
    assert part == octets[0] + [DOT] + Join(octets[1..], DOT);
    assert part[|octets[0]|] == DOT;
  }

  /** The parts of a text that stands for groups are nonempty and hold no colon. */
  lemma PartsArePlain(parts: seq<Text>, n: nat, quad: bool)
    requires StandFor(parts, n, quad)
    ensures parts != []
    ensures forall k :: 0 <= k < |parts| ==> parts[k] != [] && COLON !in parts[k]
  {
    hide IsDotted;
    if IsDotted(parts[|parts| - 1]) {
      DottedHasNoColon(parts[|parts| - 1]);
    }
  }

  lemma WidthSpells(text: Text, n: nat, quad: bool)
    ensures Width(text, quad) == Some(n) <==> Spells(text, n, quad)
  {
    hide Width, StandFor, Spells;
    if text == [] {
      EmptySpells(n, quad);
      NoWidth(quad);
    } else {
      WidthStands(text, n, quad);
      PartsAreSplit(text, n, quad);
    }
  }

  /** A text stands for groups exactly if its parts between colons do. */
  lemma PartsAreSplit(text: Text, n: nat, quad: bool)
    requires text != []
    ensures Spells(text, n, quad) <==> StandFor(Split(text, COLON), n, quad)
  {
    hide IsDotted, IsGroup;
    JoinSplit(text, COLON);
    if Spells(text, n, quad) {
      var others: seq<Text> :| StandFor(others, n, quad) && text == Join(others, COLON);
      PartsArePlain(others, n, quad);
      SplitJoin(others, COLON);
    }
  }

  lemma NoWidth(quad: bool)
    ensures Width([], quad) == Some(0)
  {
  }

  lemma WidthStands(text: Text, n: nat, quad: bool)
    requires text != []
    ensures Width(text, quad) == Some(n) <==> StandFor(Split(text, COLON), n, quad)
  {
    hide IsQuad, IsDotted, IsGroup, Split;
    var last := Split(text, COLON)[|Split(text, COLON)| - 1];
    DottedIsQuad(last);
    if IsDotted(last) {
      DottedIsNoGroup(last);
    }
  }

  lemma EmptySpells(n: nat, quad: bool)
    ensures Spells([], n, quad) <==> n == 0
  {
    hide IsDotted;
    forall parts: seq<Text> | StandFor(parts, n, quad)
      ensures Join(parts, COLON) != []
    {
      PartsArePlain(parts, n, quad);
    }
  }

  /** No double colon begins before this position. */
  predicate NoGapBefore(text: Text, n: nat) {
    forall i :: 0 <= i < n && i + 1 < |text| ==> !(text[i] == COLON && text[i + 1] == COLON)
  }

  lemma {:induction false} GapIsFirst(text: Text)
    ensures NoGapBefore(text, Gap(text))
  {
    if |text| < 2 || (text[0] == COLON && text[1] == COLON) {
    } else {
      GapIsFirst(text[1..]);
      forall i | 0 <= i < Gap(text) && i + 1 < |text|
        ensures !(text[i] == COLON && text[i + 1] == COLON)
      {
        if i > 0 {
          assert text[1..][i - 1] == text[i] && text[1..][i] == text[i + 1];
        }
      }
    }
  }

  /** Nonempty parts without colons, joined, begin and end without a colon and hold no double one. */
  lemma {:induction false} JoinedHasNoGap(parts: seq<Text>)
    requires parts != [] && forall k :: 0 <= k < |parts| ==> parts[k] != [] && COLON !in parts[k]
    ensures var text := Join(parts, COLON);
      text != [] && text[0] != COLON && text[|text| - 1] != COLON && NoGapBefore(text, |text|)
  {
    var text := Join(parts, COLON);
    if |parts| == 1 {
      assert text == parts[0];
    } else {
      var rest := Join(parts[1..], COLON);
      JoinedHasNoGap(parts[1..]);
      var n := |parts[0]|;
      assert text == parts[0] + [COLON] + rest;
      forall i | 0 <= i < |text| && i + 1 < |text|
        ensures !(text[i] == COLON && text[i + 1] == COLON)
      {
        if i < n {
          assert text[i] == parts[0][i];
        } else if i == n {
          assert text[i + 1] == rest[0];
        } else {
          assert text[i] == rest[i - n - 1] && text[i + 1] == rest[i - n];
        }
      }
    }
  }

  lemma SpeltHasNoGap(text: Text, n: nat, quad: bool)
    requires Spells(text, n, quad)
    ensures NoGapBefore(text, |text|) && (text != [] ==> text[|text| - 1] != COLON)
  {
    if text != [] {
      var parts: seq<Text> :| StandFor(parts, n, quad) && text == Join(parts, COLON);
      PartsArePlain(parts, n, quad);
      JoinedHasNoGap(parts);
    }
  }

  /** The first double colon is behind the head. */
  lemma GapBehindHead(head: Text, tail: Text, m: nat)
    requires Spells(head, m, false)
    ensures Gap(head + [COLON, COLON] + tail) == |head|
  {
    hide Spells;
    var text := head + [COLON, COLON] + tail;
    SpeltHasNoGap(head, m, false);
    GapIsFirst(text);
    assert text[|head|] == COLON && text[|head| + 1] == COLON;
    forall j | 0 <= j < |head| ensures !(text[j] == COLON && text[j + 1] == COLON) {
      assert text[j] == head[j];
      assert j + 1 < |head| ==> text[j + 1] == head[j + 1];
    }
  }

  /** A text is accepted exactly if it is a literal of the grammar. */
  lemma LiteralsAreAccepted(text: Text)
    ensures IsIpv6(text) <==> IsLiteral(text)
  {
    hide Width, Spells;
    var i := Gap(text);
    forall head: Text, tail: Text, m: nat, n: nat |
      text == head + [COLON, COLON] + tail && Spells(head, m, false) && Spells(tail, n, true) && m + n <= 7
      ensures IsIpv6(text)
    {
      GapBehindHead(head, tail, m);
      assert text[..i] == head && text[i + 2..] == tail;
      WidthSpells(head, m, false);
      WidthSpells(tail, n, true);
    }
    if Spells(text, 8, true) {
      SpeltHasNoGap(text, 8, true);
      WidthSpells(text, 8, true);
    }
    if IsIpv6(text) {
      AcceptedIsLiteral(text);
    }
  }

  lemma AcceptedIsLiteral(text: Text)
    requires IsIpv6(text)
    ensures IsLiteral(text)
  {
    hide Width, Spells;
    var i := Gap(text);
    if i == |text| {
      WidthSpells(text, 8, true);
    } else {
      var head, tail := text[..i], text[i + 2..];
      var m, n := Width(head, false).value, Width(tail, true).value;
      WidthSpells(head, m, false);
      WidthSpells(tail, n, true);
      assert text == head + [COLON, COLON] + tail;
    }
  }
}
