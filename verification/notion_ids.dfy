/** Workspace object IDs. An ID is 32 hexadecimal digits; URLs carry it either
    bare or in the 8-4-4-4-12 hyphenated form. `ExtractId` finds the leftmost
    occurrence of either form (ignoring letter case, keeping the case it
    finds) and removes the dashes; `FormatId` puts the dashes back. */
module NotionIds {
  import opened Js

  predicate IsHex(c: char) {
    '0' <= c <= '9' || 'a' <= c <= 'f' || 'A' <= c <= 'F'
  }

  /** 32 hexadecimal digits, in either letter case. */
  predicate IsId(s: string) {
    |s| == 32 && forall k :: 0 <= k < 32 ==> IsHex(s[k])
  }

  /** The positions of the four dashes of the hyphenated form. */
  predicate DashSlot(k: int) {
    k == 8 || k == 13 || k == 18 || k == 23
  }

  /** An ID in the 8-4-4-4-12 hyphenated form. */
  predicate IsDashedId(t: string) {
    |t| == 36 && forall k :: 0 <= k < 36 ==> if DashSlot(k) then t[k] == '-' else IsHex(t[k])
  }

  /** The alternative `[a-f0-9]{32}` matches at position `i`. */
  predicate BareAt(s: string, i: nat) {
    i + 32 <= |s| && IsId(s[i..i + 32])
  }

  /** The alternative `[a-f0-9]{8}-…-[a-f0-9]{12}` matches at position `i`. */
  predicate DashedAt(s: string, i: nat) {
    i + 36 <= |s| && IsDashedId(s[i..i + 36])
  }

  predicate NoDash(s: string) {
    forall k :: 0 <= k < |s| ==> s[k] != '-'
  }

  /** `s.replace(/-/g, '')` */
  function StripDashes(s: string): (r: string)
    ensures NoDash(r)
    ensures |r| <= |s|
  {
    if |s| == 0 then ""
    else (if s[0] == '-' then "" else [s[0]]) + StripDashes(s[1..])
  }

  lemma {:induction false} StripConcat(a: string, b: string)
    ensures StripDashes(a + b) == StripDashes(a) + StripDashes(b)
  {
    if |a| == 0 {
      assert a + b == b;
    } else {
      assert (a + b)[1..] == a[1..] + b;
      StripConcat(a[1..], b);
    }
  }

  lemma {:induction false} StripNoDash(s: string)
    requires NoDash(s)
    ensures StripDashes(s) == s
  {
    if |s| > 0 {
      StripNoDash(s[1..]);
    }
  }

  /** A dash-free piece followed by a dash loses only the dash. */
  lemma StripPiece(a: string, rest: string)
    requires NoDash(a)
    ensures StripDashes(a + "-" + rest) == a + StripDashes(rest)
  {
    var t := "-" + rest;
    assert a + "-" + rest == a + t;
    StripConcat(a, t);
    StripNoDash(a);
    StripDash(rest);
  }

  lemma StripDash(rest: string)
    ensures StripDashes("-" + rest) == StripDashes(rest)
  {
    var t := "-" + rest;
    assert t[0] == '-';
    assert t[1..] == rest;
  }

  /** The pieces one after the other. */
  function Concat(parts: seq<string>): string {
    if |parts| == 0 then "" else parts[0] + Concat(parts[1..])
  }

  /** Joining dash-free pieces with dashes and removing the dashes again
      gives the pieces one after the other. */
  lemma {:induction false} StripJoin(parts: seq<string>)
    requires forall i :: 0 <= i < |parts| ==> NoDash(parts[i])
    ensures StripDashes(Join(parts, "-")) == Concat(parts)
    ensures |parts| > 0 ==> |Join(parts, "-")| == |Concat(parts)| + |parts| - 1
  {
    if |parts| == 1 {
      StripNoDash(parts[0]);
      assert Concat(parts) == parts[0] + Concat(parts[1..]);
    } else if |parts| > 1 {
      StripJoin(parts[1..]);
      StripPiece(parts[0], Join(parts[1..], "-"));
    }
  }

  /** What one alternation of the pattern yields at position `i`: the bare
      form is tried first; the two forms cannot both match, since character 8
      is a digit in one and a dash in the other. */
  function MatchAt(s: string, i: nat): Option<string> {
    if BareAt(s, i) then Some(s[i..i + 32])
    else if DashedAt(s, i) then Some(StripDashes(s[i..i + 36]))
    else None
  }

  /** The leftmost match at or after position `i`. */
  function ExtractFrom(s: string, i: nat): (r: Option<string>)
    ensures r.None? <==> forall j :: i <= j < |s| ==> MatchAt(s, j).None?
    ensures r.Some? ==>
      exists j :: i <= j < |s| && MatchAt(s, j) == r && forall k :: i <= k < j ==> MatchAt(s, k).None?
    decreases |s| - i
  {
    if i >= |s| then None
    else
      match MatchAt(s, i)
      case Some(id) => Some(id)
      case None => ExtractFrom(s, i + 1)
  }

  /** `url.match(/([a-f0-9]{32}|[a-f0-9]{8}-…-[a-f0-9]{12})/i)`, then the
      match with its dashes removed, or null. */
  function ExtractId(url: string): (r: Option<string>)
    ensures r.None? <==> forall j :: 0 <= j < |url| ==> !BareAt(url, j) && !DashedAt(url, j)
    ensures r.Some? ==> IsId(r.value)
    ensures r.Some? ==>
      exists j :: 0 <= j < |url| && MatchAt(url, j) == r && forall k :: 0 <= k < j ==> MatchAt(url, k).None?
  {
    FoundIsId(url);
    ExtractFrom(url, 0)
  }

  lemma FoundIsId(url: string)
    ensures ExtractFrom(url, 0).None? <==> forall j :: 0 <= j < |url| ==> !BareAt(url, j) && !DashedAt(url, j)
    ensures ExtractFrom(url, 0).Some? ==> IsId(ExtractFrom(url, 0).value)
  {
    var r := ExtractFrom(url, 0);
    if r.None? {
      forall j | 0 <= j < |url| ensures !BareAt(url, j) && !DashedAt(url, j) {
        assert MatchAt(url, j).None?;
      }
    } else {
      var j :| 0 <= j < |url| && MatchAt(url, j) == r && forall k :: 0 <= k < j ==> MatchAt(url, k).None?;
      MatchIsId(url, j);
    }
  }

  /** Whatever matches is an ID once its dashes are gone. */
  lemma MatchIsId(s: string, i: nat)
    requires MatchAt(s, i).Some?
    ensures IsId(MatchAt(s, i).value)
  {
    if !BareAt(s, i) {
      DashedStrip(s[i..i + 36]);
    }
  }

  /** `s.slice(from, to)`, which clamps both ends to the string. */
  function Slice(s: string, from: nat, to: nat): (r: string)
    ensures to <= |s| && from <= to ==> r == s[from..to]
    ensures to <= |s| && to < from ==> r == ""
    ensures |s| <= to ==> r == Slice(s, from, |s|)
  {
    var e := if to < |s| then to else |s|;
    var b := if from < e then from else e;
    s[b..e]
  }

  lemma SliceToEnd(s: string, a: nat, b: nat)
    requires a <= b
    ensures Slice(s, a, b) + Slice(s, b, |s|) == Slice(s, a, |s|)
  {
  }

  /** The five slices `formatId` takes: characters 0-8, 8-12, 12-16, 16-20
      and the rest, each clamped to the string. */
  function Groups(c: string): seq<string> {
    [Slice(c, 0, 8), Slice(c, 8, 12), Slice(c, 12, 16), Slice(c, 16, 20), Slice(c, 20, |c|)]
  }

  /** The groups are dash-free and together make up the whole string,
      however short it is. */
  lemma GroupsCover(c: string)
    requires NoDash(c)
    ensures forall i :: 0 <= i < 5 ==> NoDash(Groups(c)[i])
    ensures Concat(Groups(c)) == c
  {
    SliceToEnd(c, 16, 20);
    SliceToEnd(c, 12, 16);
    SliceToEnd(c, 8, 12);
    SliceToEnd(c, 0, 8);
    FiveParts(Groups(c));
  }

  /** `${clean.slice(0, 8)}-${clean.slice(8, 12)}-…-${clean.slice(20)}`: the
      groups joined by dashes. */
  function FormatId(id: string): (r: string)
    ensures |r| == |StripDashes(id)| + 4
    ensures StripDashes(r) == StripDashes(id)
  {
    var c := StripDashes(id);
    GroupsCover(c);
    StripJoin(Groups(c));
    Join(Groups(c), "-")
  }

  /** Five pieces joined by dashes, and one after the other, written out. */
  lemma FiveParts(g: seq<string>)
    requires |g| == 5
    ensures Join(g, "-") == g[0] + "-" + (g[1] + "-" + (g[2] + "-" + (g[3] + "-" + g[4])))
    ensures Concat(g) == g[0] + (g[1] + (g[2] + (g[3] + g[4])))
  {
    assert g[1..][1..] == g[2..];
    assert g[2..][1..] == g[3..];
    assert g[3..][1..] == g[4..];
    assert Join(g[4..], "-") == g[4];
    assert Join(g[3..], "-") == g[3] + "-" + g[4];
    assert Join(g[2..], "-") == g[2] + "-" + Join(g[3..], "-");
    assert Join(g[1..], "-") == g[1] + "-" + Join(g[2..], "-");
    assert Concat(g[4..]) == g[4] + Concat([]);
    assert Concat(g[3..]) == g[3] + Concat(g[4..]);
    assert Concat(g[2..]) == g[2] + Concat(g[3..]);
    assert Concat(g[1..]) == g[1] + Concat(g[2..]);
  }

  /** The hyphenated form of an ID, written out. */
  lemma FormatShape(x: string)
    requires IsId(x)
    ensures FormatId(x) == Join([x[..8], x[8..12], x[12..16], x[16..20], x[20..]], "-")
    ensures IsDashedId(FormatId(x))
  {
    StripNoDash(x);
    var g := [x[..8], x[8..12], x[12..16], x[16..20], x[20..]];
    assert Slice(x, 0, 8) == x[..8];
    assert Slice(x, 20, |x|) == x[20..];
    assert Groups(x) == g;
    FiveParts(g);
    var r := FormatId(x);
    forall k | 0 <= k < 36
      ensures if DashSlot(k) then r[k] == '-' else IsHex(r[k])
    {
      if k < 8 { assert r[k] == x[k]; }
      else if 8 < k < 13 { assert r[k] == x[k - 1]; }
      else if 13 < k < 18 { assert r[k] == x[k - 2]; }
      else if 18 < k < 23 { assert r[k] == x[k - 3]; }
      else if 23 < k { assert r[k] == x[k - 4]; }
    }
  }

  /** The five digit groups of a hyphenated ID. */
  function DashedGroups(t: string): seq<string>
    requires |t| == 36
  {
    [t[..8], t[9..13], t[14..18], t[19..23], t[24..]]
  }

  /** The groups are hex digits, and joining them with dashes gives back the
      hyphenated text. */
  lemma DashedGroupsJoin(t: string)
    requires IsDashedId(t)
    ensures forall i, k :: 0 <= i < 5 && 0 <= k < |DashedGroups(t)[i]| ==> IsHex(DashedGroups(t)[i][k])
    ensures |DashedGroups(t)[0]| == 8 && |DashedGroups(t)[1]| == 4 && |DashedGroups(t)[2]| == 4
    ensures |DashedGroups(t)[3]| == 4 && |DashedGroups(t)[4]| == 12
    ensures Join(DashedGroups(t), "-") == t
  {
    var g := DashedGroups(t);
    forall k | 0 <= k < 8 ensures IsHex(g[0][k]) { assert g[0][k] == t[k] && !DashSlot(k); }
    forall k | 0 <= k < 4 ensures IsHex(g[1][k]) { assert g[1][k] == t[k + 9] && !DashSlot(k + 9); }
    forall k | 0 <= k < 4 ensures IsHex(g[2][k]) { assert g[2][k] == t[k + 14] && !DashSlot(k + 14); }
    forall k | 0 <= k < 4 ensures IsHex(g[3][k]) { assert g[3][k] == t[k + 19] && !DashSlot(k + 19); }
    forall k | 0 <= k < 12 ensures IsHex(g[4][k]) { assert g[4][k] == t[k + 24] && !DashSlot(k + 24); }
    FiveParts(g);
  }

  /** Five groups of 8, 4, 4, 4 and 12 hex digits make an ID, whose own
      groups they are. */
  lemma ConcatGroups(g: seq<string>)
    requires |g| == 5
    requires |g[0]| == 8 && |g[1]| == 4 && |g[2]| == 4 && |g[3]| == 4 && |g[4]| == 12
    requires forall i, k :: 0 <= i < 5 && 0 <= k < |g[i]| ==> IsHex(g[i][k])
    ensures IsId(Concat(g))
    ensures [Concat(g)[..8], Concat(g)[8..12], Concat(g)[12..16], Concat(g)[16..20], Concat(g)[20..]] == g
  {
    FiveParts(g);
    var x := Concat(g);
    forall k | 0 <= k < 32 ensures IsHex(x[k]) {
      if k < 8 { assert x[k] == g[0][k]; }
      else if k < 12 { assert x[k] == g[1][k - 8]; }
      else if k < 16 { assert x[k] == g[2][k - 12]; }
      else if k < 20 { assert x[k] == g[3][k - 16]; }
      else { assert x[k] == g[4][k - 20]; }
    }
    assert x[..8] == g[0];
    assert x[8..12] == g[1];
    assert x[12..16] == g[2];
    assert x[16..20] == g[3];
    assert x[20..] == g[4];
  }

  /** Removing the dashes of a hyphenated ID gives an ID, and formatting that
      ID gives back the hyphenated text. */
  lemma DashedStrip(t: string)
    requires IsDashedId(t)
    ensures IsId(StripDashes(t))
    ensures FormatId(StripDashes(t)) == t
  {
    var g := DashedGroups(t);
    DashedGroupsJoin(t);
    assert forall i :: 0 <= i < 5 ==> NoDash(g[i]);
    StripJoin(g);
    ConcatGroups(g);
    FormatShape(Concat(g));
  }

  /** `formatId` depends only on the digits: it is idempotent, and it inverts
      the dash removal on a hyphenated ID. */
  lemma FormatIdempotent(id: string)
    ensures FormatId(FormatId(id)) == FormatId(id)
    ensures IsDashedId(id) ==> FormatId(id) == id
  {
    if IsDashedId(id) {
      DashedStrip(id);
    }
  }

  /** A character that can end the text in front of an embedded ID: it
      neither continues a hex run nor a hyphenated group. */
  predicate Separator(c: char) {
    !IsHex(c) && c != '-'
  }

  /** Nothing matches at a position inside a prefix that has no match of its
      own and ends in a separator. */
  lemma PrefixNoMatch(p: string, rest: string, j: nat)
    requires ExtractId(p).None?
    requires |p| > 0 ==> Separator(p[|p| - 1])
    requires j < |p|
    ensures MatchAt(p + rest, j).None?
  {
    PrefixNotBare(p, rest, j);
    PrefixNotDashed(p, rest, j);
  }

  lemma PrefixNotBare(p: string, rest: string, j: nat)
    requires ExtractId(p).None?
    requires |p| > 0 ==> Separator(p[|p| - 1])
    requires j < |p|
    ensures !BareAt(p + rest, j)
  {
    var s := p + rest;
    if j + 32 <= |p| {
      assert s[j..j + 32] == p[j..j + 32];
      assert !BareAt(p, j);
    } else if j + 32 <= |s| {
      var t := s[j..j + 32];
      assert t[|p| - 1 - j] == p[|p| - 1];
    }
  }

  lemma PrefixNotDashed(p: string, rest: string, j: nat)
    requires ExtractId(p).None?
    requires |p| > 0 ==> Separator(p[|p| - 1])
    requires j < |p|
    ensures !DashedAt(p + rest, j)
  {
    var s := p + rest;
    if j + 36 <= |p| {
      assert s[j..j + 36] == p[j..j + 36];
      assert !DashedAt(p, j);
    } else if j + 36 <= |s| {
      var t := s[j..j + 36];
      assert t[|p| - 1 - j] == p[|p| - 1];
    }
  }

  /** When nothing matches before position `i` and something matches at `i`,
      that is the leftmost match. */
  lemma LeftmostAt(s: string, i: nat, m: string)
    requires forall j :: 0 <= j < i ==> MatchAt(s, j).None?
    requires MatchAt(s, i) == Some(m)
    ensures ExtractId(s) == Some(m)
  {
    var r := ExtractId(s);
    var j :| 0 <= j < |s| && MatchAt(s, j) == r && forall k :: 0 <= k < j ==> MatchAt(s, k).None?;
    assert j == i;
  }

  /** After a prefix with no match of its own that ends in a separator, the
      leftmost match is the one right after the prefix, when there is one. */
  lemma ExtractAfterPrefix(p: string, rest: string, m: string)
    requires ExtractId(p).None?
    requires |p| > 0 ==> Separator(p[|p| - 1])
    requires MatchAt(p + rest, |p|) == Some(m)
    ensures ExtractId(p + rest) == Some(m)
  {
    forall j | 0 <= j < |p|
      ensures MatchAt(p + rest, j).None?
    {
      PrefixNoMatch(p, rest, j);
    }
    LeftmostAt(p + rest, |p|, m);
  }

  lemma EmbeddedBare(p: string, x: string, q: string)
    requires IsId(x)
    requires ExtractId(p).None?
    requires |p| > 0 ==> Separator(p[|p| - 1])
    ensures ExtractId(p + x + q) == Some(x)
  {
    var s := p + (x + q);
    assert s[|p|..|p| + 32] == x;
    assert BareAt(s, |p|);
    ExtractAfterPrefix(p, x + q, x);
    assert p + x + q == s;
  }

  lemma EmbeddedDashed(p: string, x: string, q: string)
    requires IsId(x)
    requires ExtractId(p).None?
    requires |p| > 0 ==> Separator(p[|p| - 1])
    ensures ExtractId(p + FormatId(x) + q) == Some(x)
  {
    var f := FormatId(x);
    FormatShape(x);
    StripNoDash(x);
    var s := p + (f + q);
    assert s[|p|..|p| + 36] == f;
    assert s[|p|..|p| + 32][8] == f[8] == '-';
    assert !BareAt(s, |p|);
    assert DashedAt(s, |p|);
    assert StripDashes(f) == x;
    ExtractAfterPrefix(p, f + q, x);
    assert p + f + q == s;
  }

  /** The end of a page-title slug: a dash, with a separator among the 23
      characters before it (or fewer than 24 characters in all), so that the
      dash cannot be the last dash of a hyphenated ID begun in the slug. */
  predicate SlugEnd(p: string) {
    && |p| > 0 && p[|p| - 1] == '-'
    && (|p| < 24 || exists k :: |p| - 24 <= k < |p| - 1 && Separator(p[k]))
  }

  /** Nothing matches at a position inside a slug with no match of its own,
      when the text after it has hex digits at offsets 4, 9 and 14 (as both
      an ID and its hyphenated form have). */
  lemma SlugNoMatch(p: string, rest: string, j: nat)
    requires ExtractId(p).None?
    requires SlugEnd(p)
    requires |rest| >= 15 && IsHex(rest[4]) && IsHex(rest[9]) && IsHex(rest[14])
    requires j < |p|
    ensures MatchAt(p + rest, j).None?
  {
    SlugNotBare(p, rest, j);
    SlugNotDashed(p, rest, j);
  }

  lemma SlugNotBare(p: string, rest: string, j: nat)
    requires ExtractId(p).None?
    requires SlugEnd(p)
    requires j < |p|
    ensures !BareAt(p + rest, j)
  {
    var s := p + rest;
    if j + 32 <= |p| {
      assert s[j..j + 32] == p[j..j + 32];
      assert !BareAt(p, j);
    } else if j + 32 <= |s| {
      var t := s[j..j + 32];
      assert t[|p| - 1 - j] == s[|p| - 1] == p[|p| - 1];
    }
  }

  lemma SlugNotDashed(p: string, rest: string, j: nat)
    requires ExtractId(p).None?
    requires SlugEnd(p)
    requires |rest| >= 15 && IsHex(rest[4]) && IsHex(rest[9]) && IsHex(rest[14])
    requires j < |p|
    ensures !DashedAt(p + rest, j)
  {
    var s := p + rest;
    if j + 36 <= |p| {
      assert s[j..j + 36] == p[j..j + 36];
      assert !DashedAt(p, j);
    } else if j + 36 <= |s| {
      var t := s[j..j + 36];
      var d := |p| - 1 - j;
      assert t[d] == s[|p| - 1] == p[|p| - 1] == '-';
      if d < 23 {
        // the slot-23 dash would fall on a hex digit of `rest`
        assert t[23] == s[|p| + (22 - d)] == rest[22 - d];
        assert !IsHex('-');
      } else if d == 23 {
        var k :| |p| - 24 <= k < |p| - 1 && Separator(p[k]);
        assert t[k - j] == s[k] == p[k];
      }
    }
  }

  /** After a slug with no match of its own, an ID or its hyphenated form is
      the leftmost match. */
  lemma EmbeddedSlug(p: string, x: string, q: string)
    requires IsId(x)
    requires ExtractId(p).None?
    requires SlugEnd(p)
    ensures ExtractId(p + x + q) == Some(x)
    ensures ExtractId(p + FormatId(x) + q) == Some(x)
  {
    SlugBare(p, x, q);
    SlugDashed(p, x, q);
  }

  lemma SlugBare(p: string, x: string, q: string)
    requires IsId(x)
    requires ExtractId(p).None?
    requires SlugEnd(p)
    ensures ExtractId(p + x + q) == Some(x)
  {
    var bare := x + q;
    forall j | 0 <= j < |p| ensures MatchAt(p + bare, j).None? {
      SlugNoMatch(p, bare, j);
    }
    assert (p + bare)[|p|..|p| + 32] == x;
    LeftmostAt(p + bare, |p|, x);
    assert p + x + q == p + bare;
  }

  lemma SlugDashed(p: string, x: string, q: string)
    requires IsId(x)
    requires ExtractId(p).None?
    requires SlugEnd(p)
    ensures ExtractId(p + FormatId(x) + q) == Some(x)
  {
    var f := FormatId(x);
    FormatShape(x);
    StripNoDash(x);
    var dashed := f + q;
    forall j | 0 <= j < |p| ensures MatchAt(p + dashed, j).None? {
      SlugNoMatch(p, dashed, j);
    }
    var s := p + dashed;
    assert s[|p|..|p| + 36] == f;
    assert s[|p|..|p| + 32][8] == f[8] == '-';
    assert !BareAt(s, |p|);
    assert DashedAt(s, |p|);
    assert StripDashes(f) == x;
    LeftmostAt(s, |p|, x);
    assert p + f + q == s;
  }

  /** The same ID embedded in a URL bare or hyphenated is extracted
      identically, when the text in front of it holds no ID and ends in a
      separator (`…/<id>`) or a title slug's dash (`…/Page-Title-<id>`). */
  lemma EmbeddedId(p: string, x: string, q: string)
    requires IsId(x)
    requires ExtractId(p).None?
    requires |p| > 0 ==> Separator(p[|p| - 1]) || SlugEnd(p)
    ensures ExtractId(p + x + q) == Some(x)
    ensures ExtractId(p + FormatId(x) + q) == Some(x)
  {
    if |p| > 0 && !Separator(p[|p| - 1]) {
      EmbeddedSlug(p, x, q);
    } else {
      EmbeddedBare(p, x, q);
      EmbeddedDashed(p, x, q);
    }
  }

  /** A page URL of the usual shape gives back the ID after its title. */
  lemma SlugUrl(x: string)
    requires IsId(x)
    ensures ExtractId("https://www.notion.so/Page-Title-" + x) == Some(x)
    ensures ExtractId("https://www.notion.so/Page-Title-" + FormatId(x)) == Some(x)
  {
    var p := "https://www.notion.so/Page-Title-";
    assert Separator(p[11]);
    NoIdInTitleUrl();
    EmbeddedId(p, x, "");
    assert p + x + "" == p + x;
    assert p + FormatId(x) + "" == p + FormatId(x);
  }

  lemma NoIdInTitleUrl()
    ensures ExtractId("https://www.notion.so/Page-Title-").None?
  {
    var p := "https://www.notion.so/Page-Title-";
    forall j | 0 <= j < |p| ensures MatchAt(p, j).None? {
      if j + 32 <= |p| {
        assert p[j..j + 32][0] == p[j];
      }
    }
  }

  /** With nothing around it: an ID and its hyphenated form both extract to
      the ID itself. */
  lemma ExtractFormatted(x: string)
    requires IsId(x)
    ensures ExtractId(x) == Some(x)
    ensures ExtractId(FormatId(x)) == Some(x)
  {
    EmbeddedId("", x, "");
    assert "" + x + "" == x;
    assert "" + FormatId(x) + "" == FormatId(x);
  }
}
