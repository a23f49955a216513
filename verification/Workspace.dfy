/** Removing local paths from text (src/mycoagent/node/workspace.py,
    strip_local_paths): each spelling of the root is replaced, longest first. */
module Workspace {

  const TAG := "[workspace]"

  predicate StartsWith(t: string, v: string) {
    |v| <= |t| && t[..|v|] == v
  }

  predicate Occurs(v: string, t: string) {
    exists i :: 0 <= i <= |t| && StartsWith(t[i..], v)
  }

  /** Python's `str.replace`: leftmost, without overlaps. */
  function Replace(t: string, old_: string, new_: string): string
    requires old_ != ""
    decreases |t|
  {
    if t == "" then ""
    else if StartsWith(t, old_) then new_ + Replace(t[|old_|..], old_, new_)
    else [t[0]] + Replace(t[1..], old_, new_)
  }

  /** One round of the loop; an empty spelling is skipped. */
  function StripOne(t: string, v: string): string {
    if v == "" then t else Replace(t, v, TAG)
  }

  function StripAll(t: string, vs: seq<string>): string {
    if vs == [] then t else StripOne(StripAll(t, vs[..|vs| - 1]), vs[|vs| - 1])
  }

  // ----- where a tag and a path can meet

  /** One of the two starts with the other. */
  predicate MeetsTag(x: string) {
    StartsWith(TAG, x) || StartsWith(x, TAG)
  }

  /** The path can begin inside a tag. */
  predicate BeginsInTag(v: string) {
    exists o :: 0 <= o < |TAG| && (StartsWith(v, TAG[o..]) || StartsWith(TAG[o..], v))
  }

  /** The path can run into a tag at k: what it has from there meets the tag, and in
      `v[..k] + v` the path is not found before k. */
  predicate RunsIntoTag(v: string, k: int) {
    0 < k < |v| && MeetsTag(v[k..]) && forall i :: 0 <= i < k ==> !StartsWith((v[..k] + v)[i..], v)
  }

  /** The path can come back by its own replacement. */
  predicate Reappears(v: string) {
    BeginsInTag(v) || exists k :: 0 < k < |v| && RunsIntoTag(v, k)
  }

  /** The path meets a tag nowhere, so that no replacement can create it. */
  predicate Apart(v: string) {
    v != "" && !BeginsInTag(v) && forall k :: 0 < k < |v| ==> !MeetsTag(v[k..])
  }

  lemma HeadDiffers(t: string, v: string, k: nat)
    requires k < |v| && k < |t| && t[k] != v[k]
    ensures !StartsWith(t, v)
  {
    if |v| <= |t| { assert t[..|v|][k] == t[k]; }
  }

  lemma ApartNeverReappears(v: string)
    requires Apart(v)
    ensures !Reappears(v)
  {
    hide BeginsInTag, MeetsTag;
  }

  /** Absolute paths without a bracket meet no tag. */
  lemma AbsoluteIsApart(v: string)
    requires v != "" && v[0] == '/' && '[' !in v
    ensures Apart(v) && !Reappears(v)
  {
    hide Reappears;
    forall o | 0 <= o < |TAG| ensures !StartsWith(v, TAG[o..]) && !StartsWith(TAG[o..], v) {
      HeadDiffers(v, TAG[o..], 0);
      HeadDiffers(TAG[o..], v, 0);
    }
    forall k | 0 < k < |v| ensures !MeetsTag(v[k..]) {
      assert v[k] != '[';
      HeadDiffers(v[k..], TAG, 0);
      HeadDiffers(TAG, v[k..], 0);
    }
    ApartNeverReappears(v);
  }

  // ----- what one replacement does

  lemma ReplaceWhole(v: string)
    requires v != ""
    ensures Replace(v, v, TAG) == TAG
  {
    assert v[..|v|] == v && v[|v|..] == "";
  }

  lemma {:induction false} ReplaceAbsent(t: string, v: string)
    requires v != "" && !Occurs(v, t)
    ensures Replace(t, v, TAG) == t
    decreases |t|
  {
    if t != "" {
      assert t[0..] == t;
      forall i | 0 <= i <= |t[1..]| ensures !StartsWith(t[1..][i..], v) {
        assert t[1..][i..] == t[i + 1..];
      }
      ReplaceAbsent(t[1..], v);
    }
  }

  lemma TooShort(t: string, v: string)
    requires |t| < |v|
    ensures !Occurs(v, t)
  {}

  /** The path is found at m and not before. */
  predicate FoundAt(t: string, v: string, m: nat) {
    m <= |t| && StartsWith(t[m..], v) && forall i :: 0 <= i < m ==> !StartsWith(t[i..], v)
  }

  lemma {:induction false} FirstOccurrence(t: string, v: string, i: nat) returns (m: nat)
    requires i <= |t| && StartsWith(t[i..], v)
    ensures m <= i && FoundAt(t, v, m)
  {
    if k :| 0 <= k < i && StartsWith(t[k..], v) {
      m := FirstOccurrence(t, v, k);
    } else {
      m := i;
    }
  }

  lemma ReplaceStep(t: string, v: string)
    requires v != "" && t != ""
    ensures Replace(t, v, TAG)
         == if StartsWith(t, v) then TAG + Replace(t[|v|..], v, TAG) else [t[0]] + Replace(t[1..], v, TAG)
  {}

  lemma FoundLater(t: string, v: string, m: nat)
    requires m > 0 && FoundAt(t, v, m)
    ensures !StartsWith(t, v) && FoundAt(t[1..], v, m - 1)
  {
    assert t[0..] == t;
    forall i | 0 <= i < m - 1 ensures !StartsWith(t[1..][i..], v) {
      assert t[1..][i..] == t[i + 1..];
    }
    assert t[1..][m - 1..] == t[m..];
  }

  /** Up to its first occurrence the text is copied. */
  lemma {:induction false} ReplaceFrom(t: string, v: string, m: nat)
    requires v != "" && FoundAt(t, v, m)
    ensures m + |v| <= |t| && Replace(t, v, TAG) == t[..m] + (TAG + Replace(t[m + |v|..], v, TAG))
    decreases m
  {
    hide Replace;
    assert t != "";
    ReplaceStep(t, v);
    if m == 0 {
      assert t[0..] == t;
    } else {
      FoundLater(t, v, m);
      ReplaceFrom(t[1..], v, m - 1);
      assert t[1..][m - 1 + |v|..] == t[m + |v|..];
      assert [t[0]] + t[1..][..m - 1] == t[..m];
    }
  }

  /** A prefix of a concatenation is, as far as it goes, a prefix of the first part. */
  lemma PrefixOfSum(x: string, y: string, u: string)
    requires StartsWith(x + y, u)
    ensures StartsWith(x, u) || StartsWith(u, x)
  {
    if |u| <= |x| {
      assert (x + y)[..|u|] == x[..|u|];
    } else {
      assert u[..|x|] == (x + y)[..|u|][..|x|] == x;
    }
  }

  lemma FromInsideTag(p: nat, rest: string, u: string)
    requires p < |TAG| && StartsWith((TAG + rest)[p..], u)
    ensures BeginsInTag(u)
  {
    assert (TAG + rest)[p..] == TAG[p..] + rest;
    PrefixOfSum(TAG[p..], rest, u);
  }

  /** What occurs in the output can begin in a tag, or begins with a copied character. */
  lemma {:induction false} BeginsCopied(t: string, v: string, u: string, p: nat) returns (q: nat)
    requires v != "" && u != ""
    requires p <= |Replace(t, v, TAG)| && StartsWith(Replace(t, v, TAG)[p..], u)
    ensures BeginsInTag(u) || (q < |t| && !StartsWith(t[q..], v) && StartsWith(Replace(t[q..], v, TAG), u))
    decreases |t|
  {
    hide Replace, BeginsInTag;
    var out := Replace(t, v, TAG);
    q := 0;
    if t == "" {
      NothingIn(v);
    } else if StartsWith(t, v) {
      ReplaceStep(t, v);
      var rest := Replace(t[|v|..], v, TAG);
      if p < |TAG| {
        FromInsideTag(p, rest, u);
      } else {
        assert out[p..] == rest[p - |TAG|..];
        q := BeginsCopied(t[|v|..], v, u, p - |TAG|);
        if q < |t[|v|..]| { assert t[|v|..][q..] == t[|v| + q..]; }
        q := |v| + q;
      }
    } else if p == 0 {
      assert out[0..] == out && t[0..] == t;
    } else {
      ReplaceStep(t, v);
      assert out[p..] == Replace(t[1..], v, TAG)[p - 1..];
      q := BeginsCopied(t[1..], v, u, p - 1);
      if q < |t[1..]| { assert t[1..][q..] == t[1 + q..]; }
      q := 1 + q;
    }
  }

  lemma NothingIn(v: string)
    requires v != ""
    ensures Replace("", v, TAG) == ""
  {}

  lemma CutPrefix(x: string, y: string, u: string)
    requires StartsWith(x + y, u)
    ensures if |u| <= |x| then StartsWith(x, u) else u[..|x|] == x && StartsWith(y, u[|x|..])
  {
    var n := |u|;
    if n <= |x| {
      assert (x + y)[..n] == x[..n];
    } else {
      assert (x + y)[..n] == x + y[..n - |x|];
    }
  }

  /** It was then in the text as a whole, or it runs into the first tag. */
  lemma CopiedOrRunsIn(t: string, v: string, u: string) returns (m: nat)
    requires v != "" && !StartsWith(t, v) && StartsWith(Replace(t, v, TAG), u)
    ensures m == 0 ==> StartsWith(t, u)
    ensures m > 0 ==> m < |u| && FoundAt(t, v, m) && u[..m] == t[..m] && MeetsTag(u[m..])
  {
    hide Replace;
    if !Occurs(v, t) {
      ReplaceAbsent(t, v);
      m := 0;
    } else {
      var i :| 0 <= i <= |t| && StartsWith(t[i..], v);
      m := FirstOccurrence(t, v, i);
      assert t[0..] == t;
      ReplaceFrom(t, v, m);
      var after := Replace(t[m + |v|..], v, TAG);
      CutPrefix(t[..m], TAG + after, u);
      if |u| <= m {
        assert t[..m][..|u|] == t[..|u|];
        m := 0;
      } else {
        PrefixOfSum(TAG, after, u[m..]);
      }
    }
  }

  // ----- exactly when a path comes back

  lemma ComesBack(t: string, v: string)
    requires v != "" && Occurs(v, Replace(t, v, TAG))
    ensures Reappears(v)
  {
    if !BeginsInTag(v) {
      var p :| 0 <= p <= |Replace(t, v, TAG)| && StartsWith(Replace(t, v, TAG)[p..], v);
      var q := BeginsCopied(t, v, v, p);
      var m := CopiedOrRunsIn(t[q..], v, v);
      EntersWhereFound(t[q..], v, m);
    }
  }

  lemma EntersWhereFound(t: string, v: string, m: nat)
    requires 0 < m < |v| && FoundAt(t, v, m) && v[..m] == t[..m] && MeetsTag(v[m..])
    ensures RunsIntoTag(v, m)
  {
    assert t[..m + |v|] == v[..m] + v by { assert t[m..][..|v|] == v; }
    forall i | 0 <= i < m ensures !StartsWith((v[..m] + v)[i..], v) {
      assert !StartsWith(t[i..], v);
      assert (v[..m] + v)[i..][..|v|] == t[i..][..|v|];
    }
  }

  /** A text in whose output the path is again, if it can begin in a tag. */
  lemma BackFromTag(v: string) returns (t: string)
    requires v != "" && BeginsInTag(v)
    ensures Occurs(v, Replace(t, v, TAG))
  {
    hide Replace;
    var o :| 0 <= o < |TAG| && (StartsWith(v, TAG[o..]) || StartsWith(TAG[o..], v));
    if StartsWith(TAG[o..], v) {
      t := v;
      ReplaceWhole(v);
    } else {
      t := v + v[|TAG| - o..];
      TagThenRest(v, o);
    }
  }

  lemma TagThenRest(v: string, o: nat)
    requires o < |TAG| && StartsWith(v, TAG[o..])
    ensures Occurs(v, Replace(v + v[|TAG| - o..], v, TAG))
  {
    hide Replace;
    var rest := v[|TAG| - o..];
    var t := v + rest;
    assert t[0..] == t && t[..|v|] == v && t[|v|..] == rest;
    ReplaceStep(t, v);
    TooShort(rest, v);
    ReplaceAbsent(rest, v);
    var out := TAG + rest;
    assert v == TAG[o..] + rest by { assert v == v[..|TAG| - o] + v[|TAG| - o..]; }
    assert out[o..] == v;
    assert StartsWith(out[o..], v);
  }

  /** The same, if it can run into one. */
  lemma BackThroughTag(v: string, k: nat) returns (t: string)
    requires RunsIntoTag(v, k)
    ensures Occurs(v, Replace(t, v, TAG))
  {
    var tail := if |v| - k > |TAG| then v[k + |TAG|..] else "";
    t := v[..k] + v + tail;
    assert FoundAt(t, v, k) by {
      Middle(v[..k], v, tail);
      forall i | 0 <= i < k ensures !StartsWith(t[i..], v) {
        assert t[i..][..|v|] == (v[..k] + v)[i..][..|v|];
      }
    }
    ReplaceFrom(t, v, k);
    assert t[..k] == v[..k] && t[k + |v|..] == tail;
    TooShort(tail, v);
    ReplaceAbsent(tail, v);
    var out := Replace(t, v, TAG);
    assert out == v[..k] + (TAG + tail);
    assert out[..|v|] == v by { TagCoversRest(v, k, tail); }
    assert out[0..] == out;
  }

  lemma Middle(x: string, v: string, y: string)
    ensures StartsWith((x + v + y)[|x|..], v)
  {
    assert (x + v + y)[|x|..] == v + y;
  }

  lemma TagCoversRest(v: string, k: nat, tail: string)
    requires k < |v| && MeetsTag(v[k..]) && tail == if |v| - k > |TAG| then v[k + |TAG|..] else ""
    ensures |v| <= |v[..k] + (TAG + tail)| && (v[..k] + (TAG + tail))[..|v|] == v
  {
    assert v == v[..k] + v[k..];
    if |v| - k > |TAG| {
      assert StartsWith(v[k..], TAG);
      assert v[k..] == TAG + v[k..][|TAG|..] == TAG + tail;
    } else {
      assert (TAG + tail)[..|v| - k] == v[k..];
    }
  }

  predicate Survives(t: string, v: string)
    requires v != ""
  {
    Occurs(v, Replace(t, v, TAG))
  }

  /** For every path: some text still holds it after its replacement if and only if it
      can begin in a tag or run into one. */
  lemma ReappearsIff(v: string)
    requires v != ""
    ensures (exists t :: Survives(t, v)) <==> Reappears(v)
  {
    hide Occurs, Replace, RunsIntoTag, BeginsInTag;
    if t :| Survives(t, v) { ComesBack(t, v); }
    if BeginsInTag(v) {
      var t := BackFromTag(v);
      assert Survives(t, v);
    } else if k :| 0 < k < |v| && RunsIntoTag(v, k) {
      var t := BackThroughTag(v, k);
      assert Survives(t, v);
    }
  }

  // ----- replacing never creates a path that meets no tag

  lemma ReplaceRemoves(t: string, v: string)
    requires v != "" && !Reappears(v)
    ensures !Occurs(v, Replace(t, v, TAG))
  {
    if Occurs(v, Replace(t, v, TAG)) { ComesBack(t, v); }
  }

  lemma ReplaceCreatesNothing(t: string, v: string, u: string)
    requires v != "" && Apart(u) && !Occurs(u, t)
    ensures !Occurs(u, Replace(t, v, TAG))
  {
    if Occurs(u, Replace(t, v, TAG)) {
      var p :| 0 <= p <= |Replace(t, v, TAG)| && StartsWith(Replace(t, v, TAG)[p..], u);
      var q := BeginsCopied(t, v, u, p);
      var m := CopiedOrRunsIn(t[q..], v, u);
    }
  }

  /** The path can be told from the tag after its own round and after the rounds of the
      other spellings. Where it is the only spelling this is exact. */
  predicate Strippable(v: string, vs: set<string>) {
    v != "" && !Reappears(v) && (Apart(v) || vs <= {v, ""})
  }

  ghost function Elements(vs: seq<string>): set<string> {
    set w | w in vs
  }

  /** Whatever the order of the rounds, no strippable spelling is left in the output. */
  lemma {:induction false} StripAllRemoves(t: string, vs: seq<string>, v: string)
    requires v in vs && Strippable(v, Elements(vs))
    ensures !Occurs(v, StripAll(t, vs))
  {
    hide Occurs, Replace, Reappears, Apart;
    var front, last := vs[..|vs| - 1], vs[|vs| - 1];
    if v == last {
      ReplaceRemoves(StripAll(t, front), v);
    } else {
      assert v in front && last in Elements(vs) by { assert vs == front + [last]; }
      assert Strippable(v, Elements(front)) by {
        assert forall w :: w in front ==> w in vs;
      }
      StripAllRemoves(t, front, v);
      if last != "" {
        assert last in Elements(vs);
        ReplaceCreatesNothing(StripAll(t, front), last, v);
      }
    }
  }

  predicate RemovedFrom(t: string, v: string) {
    !Occurs(v, StripAll(t, [v]))
  }

  /** With one spelling, stripping removes it from every text exactly when the spelling
      does not come back by its own replacement. */
  lemma OneSpellingIff(v: string)
    requires v != ""
    ensures (forall t :: RemovedFrom(t, v)) <==> !Reappears(v)
  {
    hide Reappears, StripAll, Replace, Occurs;
    forall t ensures RemovedFrom(t, v) <==> !Survives(t, v) {
      Nothing(t);
      StripAllPush(t, [], v);
      assert [] + [v] == [v];
    }
    ReappearsIff(v);
  }

  /** Stripping never empties a text. */
  lemma {:induction false} StripAllEmptyIff(t: string, vs: seq<string>)
    ensures StripAll(t, vs) == "" <==> t == ""
  {
    if vs != [] { StripAllEmptyIff(t, vs[..|vs| - 1]); }
  }

  // ----- stripping again changes nothing

  lemma {:induction false} StripAllAbsent(t: string, vs: seq<string>)
    requires forall v :: v in vs ==> !Occurs(v, t)
    ensures StripAll(t, vs) == t
  {
    if vs != [] {
      StripAllAbsent(t, vs[..|vs| - 1]);
      if vs[|vs| - 1] != "" { ReplaceAbsent(t, vs[|vs| - 1]); }
    }
  }

  /** Stripping twice equals stripping once, also when the second time uses another
      order of the same spellings. */
  lemma StripTwice(t: string, vs: seq<string>, ws: seq<string>)
    requires forall v :: v in vs ==> Strippable(v, Elements(vs))
    requires forall w :: w in ws ==> w in vs
    ensures StripAll(StripAll(t, vs), ws) == StripAll(t, vs)
  {
    hide Occurs, Strippable;
    forall w | w in ws ensures !Occurs(w, StripAll(t, vs)) { StripAllRemoves(t, vs, w); }
    StripAllAbsent(StripAll(t, vs), ws);
  }

  lemma {:induction false} ReplaceBySelf(t: string)
    ensures Replace(t, TAG, TAG) == t
    decreases |t|
  {
    if t != "" {
      if StartsWith(t, TAG) {
        ReplaceBySelf(t[|TAG|..]);
        assert t == TAG + t[|TAG|..];
      } else {
        ReplaceBySelf(t[1..]);
        assert t == [t[0]] + t[1..];
      }
    }
  }

  lemma {:induction false} ReplaceLength(t: string, v: string)
    requires v != ""
    ensures |v| <= |TAG| ==> |Replace(t, v, TAG)| >= |t|
    ensures |v| >= |TAG| ==> |Replace(t, v, TAG)| <= |t|
    decreases |t|
  {
    if t != "" {
      if StartsWith(t, v) { ReplaceLength(t[|v|..], v); } else { ReplaceLength(t[1..], v); }
    }
  }

  lemma ReplacePresent(t: string, v: string)
    requires v != "" && v != TAG && Occurs(v, t)
    ensures Replace(t, v, TAG) != t
  {
    hide Replace;
    var i :| 0 <= i <= |t| && StartsWith(t[i..], v);
    var m := FirstOccurrence(t, v, i);
    ReplaceFrom(t, v, m);
    var rest := t[m + |v|..];
    ReplaceLength(rest, v);
    if |v| == |TAG| {
      assert Replace(t, v, TAG)[m..m + |v|] == TAG && t[m..m + |v|] == t[m..][..|v|] == v;
    }
  }

  predicate Settles(t: string, v: string)
    requires v != ""
  {
    Replace(Replace(t, v, TAG), v, TAG) == Replace(t, v, TAG)
  }

  /** Replacing twice equals replacing once on every text exactly when the path does not
      come back, or is the tag. */
  lemma ReplaceTwiceIff(v: string)
    requires v != ""
    ensures (forall t :: Settles(t, v)) <==> !Reappears(v) || v == TAG
  {
    hide Reappears, Replace, Occurs;
    if v == TAG {
      forall t ensures Settles(t, v) { ReplaceBySelf(Replace(t, v, TAG)); }
    } else if !Reappears(v) {
      forall t ensures Settles(t, v) {
        ReplaceRemoves(t, v);
        ReplaceAbsent(Replace(t, v, TAG), v);
      }
    } else {
      ReappearsIff(v);
      var t :| Survives(t, v);
      ReplacePresent(Replace(t, v, TAG), v);
      assert !Settles(t, v);
    }
  }

  /** Nothing but the path is lost: in a text without a bracket, putting the path back
      for the tag restores the text. */
  lemma {:induction false} ReplaceIsReversible(t: string, v: string)
    requires v != "" && '[' !in t
    ensures Replace(Replace(t, v, TAG), TAG, v) == t
    decreases |t|
  {
    if t != "" {
      var out := Replace(t, v, TAG);
      if StartsWith(t, v) {
        ReplaceIsReversible(t[|v|..], v);
        assert out[..|TAG|] == TAG && out[|TAG|..] == Replace(t[|v|..], v, TAG);
        assert t == v + t[|v|..];
      } else {
        ReplaceIsReversible(t[1..], v);
        assert out[0] != '[' && out[1..] == Replace(t[1..], v, TAG);
        assert !StartsWith(out, TAG) by { HeadDiffers(out, TAG, 0); }
        assert t == [t[0]] + t[1..];
      }
    }
  }

  // ----- why the conditions on the root, and why longest first

  /** A root that ends in a bracket can reappear at the edge of a tag, and a relative
      root can be part of the tag itself; a bracket elsewhere does no harm. */
  lemma OtherRootsReappear()
    ensures Reappears("/[") && Occurs("/[", Replace("//[", "/[", TAG))
    ensures Reappears("w")
    ensures Apart("/a[b")
  {
    var v := "/[";
    assert RunsIntoTag(v, 1) by {
      assert v[1..] == "[" && TAG[..1] == "[" && v[..1] + v == "//[";
      HeadDiffers("//["[0..], v, 1);
    }
    assert FoundAt("//[", v, 1) by { assert "//["[1..] == v; HeadDiffers("//["[0..], v, 1); }
    ReplaceFrom("//[", v, 1);
    var out := Replace("//[", v, TAG);
    assert out[..2] == v && out[0..] == out;
    assert StartsWith(TAG[1..], "w");
    BracketInside();
  }

  lemma BracketInside()
    ensures Apart("/a[b")
  {
    var v := "/a[b";
    forall o | 0 <= o < |TAG| ensures !StartsWith(v, TAG[o..]) && !StartsWith(TAG[o..], v) {
      HeadDiffers(v, TAG[o..], 0);
      HeadDiffers(TAG[o..], v, 0);
    }
    forall k | 0 < k < |v| ensures !MeetsTag(v[k..]) {
      var at := if k == 2 then 1 else 0;
      HeadDiffers(v[k..], TAG, at);
      HeadDiffers(TAG, v[k..], at);
    }
  }

  /** Wherever one spelling ends in another, as with and without `/private`: shortest
      first leaves the front of the longer one behind, longest first leaves nothing. */
  lemma ShortestFirstLeaks(front: string, short: string)
    requires front != "" && short != "" && !BeginsInTag(short) && FoundAt(front + short, short, |front|)
    ensures StripAll(front + short, [short, front + short]) == front + TAG
    ensures StripAll(front + short, [front + short, short]) == TAG
  {
    hide StripAll, Replace, Occurs, BeginsInTag;
    var long := front + short;
    Nothing(long);
    StripAllPush(long, [], short);
    StripAllPush(long, [short], long);
    StripAllPush(long, [], long);
    StripAllPush(long, [long], short);
    assert [] + [short] == [short] && [] + [long] == [long];
    assert [short] + [long] == [short, long] && [long] + [short] == [long, short];
    ReplaceFrom(long, short, |front|);
    assert long[..|front|] == front && long[|front| + |short|..] == "";
    TooShort("", short);
    ReplaceAbsent("", short);
    assert front + (TAG + "") == front + TAG;
    LongIsGone(front, short);
    ReplaceAbsent(front + TAG, long);
    ReplaceWhole(long);
    NotInTag(short);
    ReplaceAbsent(TAG, short);
  }

  lemma NotInTag(v: string)
    requires v != "" && !BeginsInTag(v)
    ensures !Occurs(v, TAG)
  {}

  lemma LongIsGone(front: string, short: string)
    requires short != "" && !BeginsInTag(short)
    ensures !Occurs(front + short, front + TAG)
  {
    hide BeginsInTag;
    var t := front + TAG;
    forall i | 0 <= i <= |t| ensures !StartsWith(t[i..], front + short) {
      if StartsWith(t[i..], front + short) { ShortInTag(front, short, i); }
    }
  }

  lemma ShortInTag(front: string, short: string, i: nat)
    requires short != "" && i <= |front + TAG| && StartsWith((front + TAG)[i..], front + short)
    ensures BeginsInTag(short)
  {
    var t, long := front + TAG, front + short;
    assert t[i..][..|long|][|front|..] == short;
    assert t[i..][..|long|][|front|..] == TAG[i..][..|short|];
    assert StartsWith(TAG[i..], short);
  }

  // ----- the method

  function WithoutPrivate(resolved: string): set<string> {
    if StartsWith(resolved, "/private/") then {resolved[|"/private"|..]} else {}
  }

  /** The spellings of the root on a POSIX system. */
  function Variants(root: string, resolved: string): set<string> {
    {root, resolved} + WithoutPrivate(resolved)
  }

  ghost predicate LongestFirst(order: seq<string>, vs: set<string>) {
    && (forall v :: v in order <==> v in vs)
    && (forall i, j :: 0 <= i < j < |order| ==> |order[i]| >= |order[j]|)
  }

  /** What stripping a text may give: the order of equally long spellings is open. */
  ghost predicate Stripped(text: string, root: string, resolved: string, result: string) {
    exists order :: LongestFirst(order, Variants(root, resolved)) && result == StripAll(text, order)
  }

  lemma StripAllPush(t: string, order: seq<string>, v: string)
    ensures StripAll(t, order + [v]) == StripOne(StripAll(t, order), v)
  {
    assert (order + [v])[..|order + [v]| - 1] == order;
  }

  lemma Nothing(t: string)
    ensures StripAll(t, []) == t && LongestFirst([], {})
  {}

  lemma SomeOrder(vs: set<string>) returns (order: seq<string>)
    ensures LongestFirst(order, vs)
    decreases vs
  {
    hide *;
    if vs == {} {
      order := [];
      Nothing("");
    } else {
      var v := Shortest(vs);
      order := SomeOrder(vs - {v});
      assert forall i :: 0 <= i < |order| ==> |order[i]| >= |v| by { Listed(order, vs - {v}); }
      LongestFirstPush(order, vs - {v}, v);
      assert vs - {v} + {v} == vs;
      order := order + [v];
    }
  }

  lemma Listed(order: seq<string>, vs: set<string>)
    requires LongestFirst(order, vs)
    ensures forall i :: 0 <= i < |order| ==> order[i] in vs
  {}

  lemma Shortest(vs: set<string>) returns (v: string)
    requires vs != {}
    ensures v in vs && forall w :: w in vs ==> |v| <= |w|
    decreases vs
  {
    v :| v in vs;
    if vs != {v} {
      var u := Shortest(vs - {v});
      if |u| < |v| { v := u; }
    }
  }

  lemma LongestFirstPush(order: seq<string>, vs: set<string>, v: string)
    requires LongestFirst(order, vs) && forall i :: 0 <= i < |order| ==> |order[i]| >= |v|
    ensures LongestFirst(order + [v], vs + {v})
  {}

  /** No spelling is left, provided each is strippable. */
  lemma StrippedOf(text: string, order: seq<string>, vs: set<string>)
    requires LongestFirst(order, vs)
    ensures forall v :: v in vs && Strippable(v, vs) ==> !Occurs(v, StripAll(text, order))
  {
    hide StripAll, Occurs, Strippable;
    assert Elements(order) == vs;
    forall v | v in vs && Strippable(v, vs) ensures !Occurs(v, StripAll(text, order)) {
      StripAllRemoves(text, order, v);
    }
  }

  lemma SpellingsListed(root: string, resolved: string)
    ensures forall v :: v == root || v == resolved || ("/private" + v == resolved && StartsWith(v, "/"))
                        <==> v in Variants(root, resolved)
  {
    forall v | "/private" + v == resolved && StartsWith(v, "/") ensures v in WithoutPrivate(resolved) {
      assert resolved[|"/private"|..] == v && v[..1] == "/";
      assert resolved[..|"/private/"|] == "/private" + v[..1];
    }
    forall v | v in WithoutPrivate(resolved) ensures "/private" + v == resolved && StartsWith(v, "/") {
      assert resolved[..|"/private/"|] == "/private/";
      assert resolved[|"/private"|..][0] == resolved[|"/private"|] == '/';
      assert resolved[..|"/private"|] == "/private";
    }
  }

  /** A text that is the resolved root becomes the tag alone, whether the root is its
      spelling without `/private` or the same. */
  lemma WholeRootBecomesTag(root: string, resolved: string, result: string)
    requires StartsWith(root, "/") && '[' !in root && (resolved == root || resolved == "/private" + root)
    requires Stripped(resolved, root, resolved, result)
    ensures result == "[workspace]"
  {
    SpellingsListed(root, resolved);
    var order :| LongestFirst(order, Variants(root, resolved)) && result == StripAll(resolved, order);
    assert root[..1] == "/" && resolved[0] == '/';
    hide StripAll, WithoutPrivate;
    forall v | v in Variants(root, resolved) ensures v != "" && v[0] == '/' && '[' !in v && |v| <= |resolved| {}
    LongestIsFirst(resolved, order);
    FirstLeavesTag(resolved, order);
  }

  lemma LongestIsFirst(v: string, order: seq<string>)
    requires v in order && forall i :: 0 <= i < |order| ==> |order[i]| < |v| || order[i] == v
    requires forall i, j :: 0 <= i < j < |order| ==> |order[i]| >= |order[j]|
    ensures order[0] == v
  {
    var j :| 0 <= j < |order| && order[j] == v;
  }

  lemma {:induction false} FirstLeavesTag(v: string, order: seq<string>)
    requires order != [] && order[0] == v
    requires forall i :: 0 <= i < |order| ==> order[i] != "" && order[i][0] == '/'
    ensures StripAll(v, order) == TAG
  {
    hide Replace, Occurs;
    if |order| == 1 {
      assert order[..0] == [];
      assert StripAll(v, []) == v;
      ReplaceWhole(v);
    } else {
      var last := order[|order| - 1];
      FirstLeavesTag(v, order[..|order| - 1]);
      TagHasNoSlash(last);
      ReplaceAbsent(TAG, last);
    }
  }

  lemma TagHasNoSlash(v: string)
    requires v != "" && v[0] == '/'
    ensures !Occurs(v, TAG)
  {
    forall i | 0 <= i <= |TAG| ensures !StartsWith(TAG[i..], v) {
      if i < |TAG| { HeadDiffers(TAG[i..], v, 0); }
    }
  }

  /** Strips every spelling of the root, longest first; among equally long ones the order
      is not determined. Of the root, the resolved root and the latter without its
      `/private` no strippable one is left in the result. */
  method StripLocalPaths(text: string, root: string, resolved: string) returns (result: string)
    ensures Stripped(text, root, resolved, result)
    ensures forall v | v == root || v == resolved || ("/private" + v == resolved && StartsWith(v, "/")) ::
              Strippable(v, Variants(root, resolved)) ==> !Occurs(v, result)
  {
    hide StripAll, Occurs, Replace, Strippable, LongestFirst;
    var variants := {root, resolved};
    if StartsWith(resolved, "/private/") {
      variants := variants + {resolved[|"/private"|..]};
    }
    assert variants == Variants(root, resolved);
    SpellingsListed(root, resolved);
    if text == "" {
      ghost var any := SomeOrder(variants);
      StripAllEmptyIff(text, any);
      StrippedOf(text, any, variants);
      return text;
    }
    result := text;
    var left := variants;
    ghost var order: seq<string> := [];
    assert variants - left == {};
    Nothing(text);
    while left != {}
      invariant left <= variants == Variants(root, resolved)
      invariant LongestFirst(order, variants - left)
      invariant forall i, v :: 0 <= i < |order| && v in left ==> |order[i]| >= |v|
      invariant result == StripAll(text, order)
      decreases left
    {
      var v := Longest(left);
      StripAllPush(text, order, v);
      LongestFirstPush(order, variants - left, v);
      if v != "" { result := Replace(result, v, TAG); }
      assert variants - left + {v} == variants - (left - {v});
      order := order + [v];
      left := left - {v};
    }
    assert variants - left == variants;
    StrippedOf(text, order, variants);
  }

  method Longest(vs: set<string>) returns (v: string)
    requires vs != {}
    ensures v in vs && forall w :: w in vs ==> |w| <= |v|
  {
    v :| v in vs;
    var left := vs - {v};
    while left != {}
      invariant left <= vs && v in vs
      invariant forall w :: w in vs - left ==> |w| <= |v|
      decreases left
    {
      var w :| w in left;
      if |w| > |v| { v := w; }
      left := left - {w};
    }
  }
}
