/** `extractPageIdFromUrl` (script_note.js:188-192): the leftmost match of
    `[a-f0-9]{32}` or of the dashed form 8-4-4-4-12, the undashed
    alternative tried first at each position, with its dashes removed; ""
    when nothing matches. The pattern has no `i` flag, so upper-case hex
    digits do not match. */
module PageId {
  import opened Wrappers

  predicate IsHex(c: char) {
    ('0' <= c <= '9') || ('a' <= c <= 'f')
  }

  predicate AllHex(s: string) {
    forall k :: 0 <= k < |s| ==> IsHex(s[k])
  }

  /** `n` hex digits start at `i`. */
  predicate HexRun(s: string, i: nat, n: nat) {
    i + n <= |s| && AllHex(s[i..i + n])
  }

  /** The first alternative, `[a-f0-9]{32}`, matches at `i`. */
  predicate PlainAt(s: string, i: nat) {
    HexRun(s, i, 32)
  }

  /** The second alternative, the dashed 8-4-4-4-12 form, matches at `i`. */
  predicate DashedAt(s: string, i: nat) {
    && i + 36 <= |s|
    && HexRun(s, i, 8) && s[i + 8] == '-'
    && HexRun(s, i + 9, 4) && s[i + 13] == '-'
    && HexRun(s, i + 14, 4) && s[i + 18] == '-'
    && HexRun(s, i + 19, 4) && s[i + 23] == '-'
    && HexRun(s, i + 24, 12)
  }

  predicate MatchesAt(s: string, i: nat) {
    PlainAt(s, i) || DashedAt(s, i)
  }

  /** `match[0]`: the text the pattern matches at `i`, the first
      alternative taking precedence. */
  function MatchText(s: string, i: nat): string
    requires MatchesAt(s, i)
  {
    if PlainAt(s, i) then s[i..i + 32] else s[i..i + 36]
  }

  /** `replace(/-/g, '')`. */
  function RemoveDashes(s: string): (r: string)
    ensures forall k :: 0 <= k < |r| ==> r[k] != '-'
  {
    if s == [] then []
    else if s[0] == '-' then RemoveDashes(s[1..])
    else [s[0]] + RemoveDashes(s[1..])
  }

  /** The regular-expression engine's scan: the leftmost position, from
      `from` on, at which the pattern matches. */
  function FirstMatch(s: string, from: nat): (r: Option<nat>)
    requires from <= |s|
    ensures r.Some? ==>
      && from <= r.value <= |s| && MatchesAt(s, r.value)
      && forall j :: from <= j < r.value ==> !MatchesAt(s, j)
    ensures r.None? ==> forall j :: from <= j <= |s| ==> !MatchesAt(s, j)
    decreases |s| - from
  {
    if MatchesAt(s, from) then Some(from)
    else if from == |s| then None
    else FirstMatch(s, from + 1)
  }

  function ExtractPageIdFromUrl(url: string): (r: string)
    ensures r == "" || (|r| == 32 && AllHex(r))
    ensures r == "" <==> forall j :: 0 <= j <= |url| ==> !MatchesAt(url, j)
    ensures r != "" ==> exists i :: 0 <= i <= |url| && MatchesAt(url, i) && (forall j :: 0 <= j < i ==> !MatchesAt(url, j))
                                   && r == RemoveDashes(MatchText(url, i))
  {
    match FirstMatch(url, 0)
    case None => ""
    case Some(i) =>
      MatchTextIsId(url, i);
      RemoveDashes(MatchText(url, i))
  }

  lemma {:induction false} RemoveDashesAppend(a: string, b: string)
    ensures RemoveDashes(a + b) == RemoveDashes(a) + RemoveDashes(b)
    decreases |a|
  {
    if a == [] {
      assert a + b == b;
    } else {
      assert (a + b)[0] == a[0];
      assert (a + b)[1..] == a[1..] + b;
      RemoveDashesAppend(a[1..], b);
    }
  }

  lemma {:induction false} RemoveDashesOfHex(s: string)
    requires AllHex(s)
    ensures RemoveDashes(s) == s
    decreases |s|
  {
    if s != [] {
      assert IsHex(s[0]);
      assert AllHex(s[1..]) by {
        forall k | 0 <= k < |s[1..]| ensures IsHex(s[1..][k]) {
          assert s[1..][k] == s[k + 1];
        }
      }
      RemoveDashesOfHex(s[1..]);
    }
  }

  lemma AllHexAppend(a: string, b: string)
    requires AllHex(a) && AllHex(b)
    ensures AllHex(a + b)
  {
    forall k | 0 <= k < |a + b| ensures IsHex((a + b)[k]) {
      if k < |a| { assert (a + b)[k] == a[k]; } else { assert (a + b)[k] == b[k - |a|]; }
    }
  }

  /** Removing the dashes of a dashed id joins its five groups. */
  lemma RemoveDashesOfGroups(g1: string, g2: string, g3: string, g4: string, g5: string)
    requires AllHex(g1) && AllHex(g2) && AllHex(g3) && AllHex(g4) && AllHex(g5)
    ensures RemoveDashes(g1 + "-" + g2 + "-" + g3 + "-" + g4 + "-" + g5) == g1 + g2 + g3 + g4 + g5
  {
    RemoveDashesOfHex(g1); RemoveDashesOfHex(g2); RemoveDashesOfHex(g3);
    RemoveDashesOfHex(g4); RemoveDashesOfHex(g5);
    var t1 := g1 + "-" + g2;
    var t2 := t1 + "-" + g3;
    var t3 := t2 + "-" + g4;
    DropDash(g1, g2);
    DropDash(t1, g3);
    DropDash(t2, g4);
    DropDash(t3, g5);
  }

  /** A dash between two strings disappears. */
  lemma DropDash(a: string, b: string)
    ensures RemoveDashes(a + "-" + b) == RemoveDashes(a) + RemoveDashes(b)
  {
    assert RemoveDashes("-" + b) == RemoveDashes(b) by {
      assert ("-" + b)[1..] == b;
    }
    assert a + "-" + b == a + ("-" + b);
    RemoveDashesAppend(a, "-" + b);
  }

  /** Either alternative's match, with its dashes removed, is 32 hex
      digits. */
  lemma MatchTextIsId(s: string, i: nat)
    requires MatchesAt(s, i)
    ensures var id := RemoveDashes(MatchText(s, i)); |id| == 32 && AllHex(id)
  {
    if PlainAt(s, i) {
      RemoveDashesOfHex(s[i..i + 32]);
    } else {
      RemoveDashesSplit(s, i, i + 8, i + 36);
      DashGroup(s, i + 8, i + 36);
      DashGroup(s, i + 13, i + 36);
      DashGroup(s, i + 18, i + 36);
      DashGroup(s, i + 23, i + 36);
      var g1, g2, g3, g4, g5 := s[i..i + 8], s[i + 9..i + 13], s[i + 14..i + 18], s[i + 19..i + 23], s[i + 24..i + 36];
      RemoveDashesOfHex(g1); RemoveDashesOfHex(g2); RemoveDashesOfHex(g3);
      RemoveDashesOfHex(g4); RemoveDashesOfHex(g5);
      assert RemoveDashes(s[i..i + 36]) == g1 + (g2 + (g3 + (g4 + g5)));
      AllHexAppend(g4, g5); AllHexAppend(g3, g4 + g5);
      AllHexAppend(g2, g3 + (g4 + g5)); AllHexAppend(g1, g2 + (g3 + (g4 + g5)));
    }
  }

  /** Removing dashes commutes with cutting a slice in two. */
  lemma RemoveDashesSplit(s: string, a: nat, b: nat, c: nat)
    requires a <= b <= c <= |s|
    ensures RemoveDashes(s[a..c]) == RemoveDashes(s[a..b]) + RemoveDashes(s[b..c])
  {
    assert s[a..c] == s[a..b] + s[b..c];
    RemoveDashesAppend(s[a..b], s[b..c]);
  }

  /** A dash at `j` disappears, and the slice after it is cut at the next
      dash four digits on (or runs to `c`). */
  lemma DashGroup(s: string, j: nat, c: nat)
    requires j < c <= |s| && s[j] == '-'
    ensures RemoveDashes(s[j..c]) == RemoveDashes(s[j + 1..c])
    ensures j + 5 <= c ==> RemoveDashes(s[j + 1..c]) == RemoveDashes(s[j + 1..j + 5]) + RemoveDashes(s[j + 5..c])
  {
    assert s[j..c][0] == '-' && s[j..c][1..] == s[j + 1..c];
    if j + 5 <= c { RemoveDashesSplit(s, j + 1, j + 5, c); }
  }

  /** The dashed UUID spelling of a 32-digit id. */
  function Dashed(id: string): string
    requires |id| == 32
  {
    id[..8] + "-" + id[8..12] + "-" + id[12..16] + "-" + id[16..20] + "-" + id[20..]
  }

  /** No position of `p` can start a match. */
  lemma NoMatchInPrefix(p: string, rest: string, j: nat)
    requires forall k :: 0 <= k < |p| ==> !IsHex(p[k])
    requires j < |p|
    ensures !MatchesAt(p + rest, j)
  {
    var s := p + rest;
    assert s[j] == p[j];
    forall n: nat | 0 < n ensures !HexRun(s, j, n) {
      if j + n <= |s| { assert s[j..j + n][0] == s[j]; }
    }
  }

  /** A URL whose id is written as 32 hex digits, with no match starting
      before it, yields that id, whatever follows it. A slug such as
      "Meeting-Notes-" may hold hex letters, as long as no match starts in
      it; `NoMatchInPrefix` gives this for prefixes without hex digits. */
  lemma ExtractsPlainId(p: string, id: string, q: string)
    requires forall j :: 0 <= j < |p| ==> !MatchesAt(p + id + q, j)
    requires |id| == 32 && AllHex(id)
    ensures ExtractPageIdFromUrl(p + id + q) == id
  {
    var url := p + id + q;
    assert url == p + (id + q);
    assert url[|p|..|p| + 32] == id;
    assert PlainAt(url, |p|);
    FirstIs(url, |p|);
    RemoveDashesOfHex(id);
  }

  /** The same id written in dashed form yields the undashed id: the
      extraction undoes `Dashed`. */
  lemma ExtractsDashedId(p: string, id: string, q: string)
    requires |id| == 32 && AllHex(id)
    requires forall j :: 0 <= j < |p| ==> !MatchesAt(p + Dashed(id) + q, j)
    ensures ExtractPageIdFromUrl(p + Dashed(id) + q) == id
  {
    var d := Dashed(id);
    var url := p + d + q;
    var i := |p|;
    DashedMatchesAt(p, id, q);
    FirstIs(url, i);
    assert MatchText(url, i) == d;
    AllHexSlice(id, 0, 8); AllHexSlice(id, 8, 12); AllHexSlice(id, 12, 16);
    AllHexSlice(id, 16, 20); AllHexSlice(id, 20, 32);
    RemoveDashesOfGroups(id[..8], id[8..12], id[12..16], id[16..20], id[20..]);
    assert id[..8] + id[8..12] + id[12..16] + id[16..20] + id[20..] == id;
  }

  lemma AllHexSlice(s: string, a: nat, b: nat)
    requires a <= b <= |s| && AllHex(s)
    ensures AllHex(s[a..b])
  {
    assert forall k :: 0 <= k < b - a ==> s[a..b][k] == s[a + k];
  }

  /** The dashed spelling matches the second alternative, and not the
      first, where it starts. */
  lemma DashedMatchesAt(p: string, id: string, q: string)
    requires |id| == 32 && AllHex(id)
    ensures var url := p + Dashed(id) + q;
      DashedAt(url, |p|) && !PlainAt(url, |p|) && url[|p|..|p| + 36] == Dashed(id)
  {
    var d := Dashed(id);
    var url := p + d + q;
    var i := |p|;
    assert url == p + (d + q);
    assert url[i..i + 36] == d;
    assert url[i + 8] == d[8] == '-';
    AllHexSlice(id, 0, 8); AllHexSlice(id, 8, 12); AllHexSlice(id, 12, 16);
    AllHexSlice(id, 16, 20); AllHexSlice(id, 20, 32);
    assert url[i..i + 8] == id[..8];
    assert url[i + 9..i + 13] == id[8..12];
    assert url[i + 14..i + 18] == id[12..16];
    assert url[i + 19..i + 23] == id[16..20];
    assert url[i + 24..i + 36] == id[20..];
  }

  /** The matched position is the only one with a match and none before. */
  lemma FirstIs(s: string, i: nat)
    requires i <= |s| && MatchesAt(s, i)
    requires forall j :: 0 <= j < i ==> !MatchesAt(s, j)
    ensures FirstMatch(s, 0) == Some(i)
  {
  }
}
