/** Artifact keys and the in-memory object store (src/mycoagent/artifacts.py). */
module Artifacts {
  import opened Models

  type Bytes = seq<bv8>

  /** The group, job and subtask an object belongs to. */
  datatype Place = Place(group: string, job: string, sub: string) {
    predicate SlashFree() { '/' !in group && '/' !in job && '/' !in sub }
  }

  datatype File = File(name: string, data: Bytes)

  datatype ArtifactError = ParentSegment | NotFound(id: string)

  const PARENT := ".."

  // ----- the key

  function Forward(name: string): string {
    if name == "" then "" else [if name[0] == '\\' then '/' else name[0]] + Forward(name[1..])
  }

  function DropSlashes(s: string): string {
    if s != "" && s[0] == '/' then DropSlashes(s[1..]) else s
  }

  function Normal(name: string): string {
    DropSlashes(Forward(name))
  }

  /** A normal name has slashes for its backslashes and none in front; nothing else is
      changed. */
  lemma {:induction false} NormalIs(name: string) returns (k: nat)
    ensures var n := Normal(name);
            && k + |n| == |name| && '\\' !in n && (n == "" || n[0] != '/')
            && (forall i :: 0 <= i < k ==> name[i] == '/' || name[i] == '\\')
            && forall i :: 0 <= i < |n| ==> n[i] == if name[k + i] == '\\' then '/' else name[k + i]
  {
    ForwardIs(name);
    k := 0;
    if name != "" && Forward(name)[0] == '/' {
      var rest := NormalIs(name[1..]);
      k := rest + 1;
    }
  }

  lemma {:induction false} ForwardIs(name: string)
    ensures |Forward(name)| == |name|
    ensures forall i :: 0 <= i < |name| ==> Forward(name)[i] == if name[i] == '\\' then '/' else name[i]
  {
    if name != "" { ForwardIs(name[1..]); }
  }

  /** Python's `str.split("/")`. */
  function Split(s: string): (parts: seq<string>)
    ensures parts != []
  {
    if s == "" then [""]
    else
      var rest := Split(s[1..]);
      if s[0] == '/' then [""] + rest else [[s[0]] + rest[0]] + rest[1..]
  }

  function ArtifactKey(place: Place, name: string): Result<string, ArtifactError> {
    if PARENT in Split(Normal(name)) then Err(ParentSegment)
    else Ok(place.group + "/" + (place.job + "/" + (place.sub + "/" + Normal(name))))
  }

  // ----- splitting, against where the slashes are

  /** `s[i..j]` lies between two slashes, or an end of the text, and holds none. */
  predicate Segment(s: string, i: nat, j: nat) {
    && i <= j <= |s| && '/' !in s[i..j]
    && (i == 0 || s[i - 1] == '/') && (j == |s| || s[j] == '/')
  }

  lemma Shifted(s: string, i: nat, j: nat)
    requires 0 < i <= j <= |s|
    ensures s[1..][i - 1..j - 1] == s[i..j]
  {}

  lemma {:induction false} PartIsSegment(s: string, k: nat) returns (i: nat, j: nat)
    requires k < |Split(s)|
    ensures Segment(s, i, j) && s[i..j] == Split(s)[k] && (k == 0 <==> i == 0)
  {
    if s == "" {
      i, j := 0, 0;
    } else if s[0] == '/' {
      if k == 0 {
        i, j := 0, 0;
      } else {
        i, j := PartIsSegment(s[1..], k - 1);
        Shifted(s, i + 1, j + 1);
        i, j := i + 1, j + 1;
      }
    } else {
      i, j := PartIsSegment(s[1..], k);
      Shifted(s, i + 1, j + 1);
      if k == 0 {
        assert s[0..j + 1] == [s[0]] + s[1..][0..j];
        j := j + 1;
      } else {
        i, j := i + 1, j + 1;
      }
    }
  }

  lemma {:induction false} FirstSegment(s: string, j: nat)
    requires Segment(s, 0, j)
    ensures Split(s)[0] == s[0..j]
  {
    if j > 0 {
      assert s[0] == s[0..j][0];
      assert s[0..j] == [s[0]] + s[1..][0..j - 1];
      assert '/' !in s[1..][0..j - 1] by {
        assert forall c :: c in s[1..][0..j - 1] ==> c in s[0..j];
      }
      FirstSegment(s[1..], j - 1);
    }
  }

  lemma {:induction false} SegmentIsPart(s: string, i: nat, j: nat) returns (k: nat)
    requires Segment(s, i, j)
    ensures k < |Split(s)| && Split(s)[k] == s[i..j] && (k == 0 <==> i == 0)
  {
    if i == 0 {
      FirstSegment(s, j);
      k := 0;
    } else {
      Shifted(s, i, j);
      k := SegmentIsPart(s[1..], i - 1, j - 1);
      if s[0] == '/' { k := k + 1; }
    }
  }

  /** The parts are exactly the segments, so a name is refused if and only if one of
      its normalised segments is "..". */
  lemma RefusedIff(place: Place, name: string)
    ensures ArtifactKey(place, name).Err? <==>
            exists i: nat, j: nat :: Segment(Normal(name), i, j) && Normal(name)[i..j] == PARENT
  {
    var s := Normal(name);
    if PARENT in Split(s) {
      var k :| 0 <= k < |Split(s)| && Split(s)[k] == PARENT;
      var i, j := PartIsSegment(s, k);
    }
    if i: nat, j: nat :| Segment(s, i, j) && s[i..j] == PARENT {
      var k := SegmentIsPart(s, i, j);
    }
  }

  function Join(parts: seq<string>): string
    requires parts != []
  {
    if |parts| == 1 then parts[0] else parts[0] + "/" + Join(parts[1..])
  }

  lemma JoinCons(a: string, rest: seq<string>)
    requires rest != []
    ensures Join([a] + rest) == a + "/" + Join(rest)
  {
    assert ([a] + rest)[1..] == rest;
  }

  lemma JoinLonger(c: char, rest: seq<string>)
    requires rest != []
    ensures Join([[c] + rest[0]] + rest[1..]) == [c] + Join(rest)
  {
    if |rest| > 1 { JoinCons([c] + rest[0], rest[1..]); }
  }

  lemma SplitStep(s: string)
    requires s != ""
    ensures s == [s[0]] + s[1..]
    ensures Split(s) == if s[0] == '/' then [""] + Split(s[1..]) else [[s[0]] + Split(s[1..])[0]] + Split(s[1..])[1..]
  {}

  lemma {:induction false} JoinUndoesSplit(s: string)
    ensures Join(Split(s)) == s
  {
    hide Join, Split;
    if s == "" {
      JoinNothing();
    } else {
      SplitStep(s);
      JoinUndoesSplit(s[1..]);
      if s[0] == '/' { JoinCons("", Split(s[1..])); } else { JoinLonger(s[0], Split(s[1..])); }
    }
  }

  lemma JoinNothing()
    ensures Join(Split("")) == ""
  {}

  /** Splitting at slashes takes a joined text apart again. */
  lemma {:induction false} SplitJoined(a: string, b: string)
    ensures Split(a + "/" + b) == Split(a) + Split(b)
  {
    hide Split;
    var s := a + "/" + b;
    SplitStep(s);
    if a == "" {
      SplitNothing();
      assert s[1..] == b;
    } else {
      SplitStep(a);
      SplitJoined(a[1..], b);
      assert s[1..] == a[1..] + "/" + b;
    }
  }

  lemma SplitNothing()
    ensures Split("") == [""]
  {}

  lemma {:induction false} SplitSlashFree(a: string)
    requires '/' !in a
    ensures Split(a) == [a]
  {
    if a != "" {
      SplitSlashFree(a[1..]);
      assert a == [a[0]] + a[1..];
    }
  }

  // ----- keys do not collide

  /** The parts of the ids and of the normalised name, in the order of the key. */
  function PartsOf(place: Place, name: string): seq<string> {
    Split(place.group) + (Split(place.job) + (Split(place.sub) + Split(Normal(name))))
  }

  lemma KeySplits(place: Place, name: string)
    requires ArtifactKey(place, name).Ok?
    ensures Split(ArtifactKey(place, name).value) == PartsOf(place, name)
  {
    hide Split, Normal;
    SplitJoined(place.sub, Normal(name));
    SplitJoined(place.job, place.sub + "/" + Normal(name));
    SplitJoined(place.group, place.job + "/" + (place.sub + "/" + Normal(name)));
    assert ArtifactKey(place, name).value
        == place.group + "/" + (place.job + "/" + (place.sub + "/" + Normal(name)));
  }

  /** Two keys are the same exactly when their parts are, whatever the ids hold. */
  lemma KeysEqualIffPartsAre(p: Place, m: string, q: Place, n: string)
    requires ArtifactKey(p, m).Ok? && ArtifactKey(q, n).Ok?
    ensures ArtifactKey(p, m) == ArtifactKey(q, n) <==> PartsOf(p, m) == PartsOf(q, n)
  {
    hide Split, PartsOf, ArtifactKey;
    KeySplits(p, m);
    KeySplits(q, n);
    JoinUndoesSplit(ArtifactKey(p, m).value);
    JoinUndoesSplit(ArtifactKey(q, n).value);
  }

  /** With slash-free ids a key reads back as its three ids and the name's segments. */
  lemma KeyParts(place: Place, name: string)
    requires place.SlashFree() && ArtifactKey(place, name).Ok?
    ensures Split(ArtifactKey(place, name).value) == [place.group, place.job, place.sub] + Split(Normal(name))
  {
    hide Split, Normal, ArtifactKey;
    KeySplits(place, name);
    SplitSlashFree(place.group);
    SplitSlashFree(place.job);
    SplitSlashFree(place.sub);
  }

  /** So with slash-free ids two keys coincide exactly when both their places and their normalised names do. */
  lemma KeysCollideIff(p: Place, m: string, q: Place, n: string)
    requires p.SlashFree() && q.SlashFree() && ArtifactKey(p, m).Ok? && ArtifactKey(q, n).Ok?
    ensures ArtifactKey(p, m) == ArtifactKey(q, n) <==> p == q && Normal(m) == Normal(n)
  {
    if ArtifactKey(p, m) == ArtifactKey(q, n) {
      var left, right := Split(ArtifactKey(p, m).value), Split(ArtifactKey(q, n).value);
      KeyParts(p, m);
      KeyParts(q, n);
      assert left[0] == p.group && left[1] == p.job && left[2] == p.sub && left[3..] == Split(Normal(m));
      assert right[0] == q.group && right[1] == q.job && right[2] == q.sub && right[3..] == Split(Normal(n));
      JoinUndoesSplit(Normal(m));
      JoinUndoesSplit(Normal(n));
    }
  }

  /** Within one place the names alone decide, whatever the ids hold. */
  lemma SamePlaceCollideIff(p: Place, m: string, n: string)
    requires ArtifactKey(p, m).Ok? && ArtifactKey(p, n).Ok?
    ensures ArtifactKey(p, m) == ArtifactKey(p, n) <==> Normal(m) == Normal(n)
  {
    hide Split, Normal;
    var before := p.group + "/" + (p.job + "/" + (p.sub + "/"));
    var x, y := ArtifactKey(p, m).value, ArtifactKey(p, n).value;
    assert x == before + Normal(m) && y == before + Normal(n);
    assert x[|before|..] == Normal(m) && y[|before|..] == Normal(n);
  }

  /** A relative name without backslashes is its own normal form... */
  lemma {:induction false} RelativeIsNormal(name: string)
    requires '\\' !in name && (name == "" || name[0] != '/')
    ensures Normal(name) == name
  {
    ForwardKeeps(name);
  }

  lemma {:induction false} ForwardKeeps(name: string)
    requires '\\' !in name
    ensures Forward(name) == name
  {
    if name != "" { ForwardKeeps(name[1..]); }
  }

  /** ...so on such names the key is injective. */
  lemma KeyIsInjective(p: Place, m: string, q: Place, n: string)
    requires p.SlashFree() && q.SlashFree() && ArtifactKey(p, m).Ok?
    requires '\\' !in m && (m == "" || m[0] != '/') && '\\' !in n && (n == "" || n[0] != '/')
    requires ArtifactKey(p, m) == ArtifactKey(q, n)
    ensures p == q && m == n
  {
    KeysCollideIff(p, m, q, n);
    RelativeIsNormal(m);
    RelativeIsNormal(n);
  }

  /** Neither can be dropped from the injectivity: a backslash in a name, and a slash in
      an id. */
  lemma OtherKeysCollide(p: Place)
    ensures ArtifactKey(p, "a\\b") == ArtifactKey(p, "a/b")
    ensures ArtifactKey(Place("x/y", "z", "s"), "n") == ArtifactKey(Place("x", "y/z", "s"), "n")
  {
    assert "a\\b"[1..] == "\\b" && "\\b"[1..] == "b" && "a/b"[1..] == "/b" && "/b"[1..] == "b";
    assert Forward("\\b") == "/b" && Forward("/b") == "/b";
    var tail := "s" + "/" + Normal("n");
    assert "x/y" + "/" + ("z" + "/" + tail) == "x" + "/" + ("y/z" + "/" + tail);
  }

  // ----- the store

  class MemoryArtifactStore {
    var objects: map<string, Bytes>

    constructor ()
      ensures objects == map[]
    {
      objects := map[];
    }

    method Put(place: Place, name: string, data: Bytes) returns (r: Result<string, ArtifactError>)
      modifies this
      ensures r == ArtifactKey(place, name)
      ensures objects == if r.Ok? then old(objects)[r.value := data] else old(objects)
    {
      r := ArtifactKey(place, name);
      if r.Ok? { objects := objects[r.value := data]; }
    }

    method Get(id: string) returns (r: Result<Bytes, ArtifactError>)
      ensures r == if id in objects then Ok(objects[id]) else Err(NotFound(id))
    {
      if id in objects { return Ok(objects[id]); }
      return Err(NotFound(id));
    }
  }

  // ----- uploading a workspace

  /** How many files come before the first refused name. */
  function Leading(place: Place, files: seq<File>): (n: nat)
    ensures n <= |files|
    ensures forall k :: 0 <= k < n ==> ArtifactKey(place, files[k].name).Ok?
    ensures n < |files| ==> ArtifactKey(place, files[n].name).Err?
  {
    if files == [] || ArtifactKey(place, files[0].name).Err? then 0 else 1 + Leading(place, files[1..])
  }

  function Keys(place: Place, files: seq<File>): (ids: seq<string>)
    requires forall f :: f in files ==> ArtifactKey(place, f.name).Ok?
    ensures |ids| == |files|
    ensures forall k :: 0 <= k < |files| ==> Ok(ids[k]) == ArtifactKey(place, files[k].name)
  {
    seq(|files|, k requires 0 <= k < |files| => ArtifactKey(place, files[k].name).value)
  }

  function Written(objects: map<string, Bytes>, ids: seq<string>, files: seq<File>): map<string, Bytes>
    requires |ids| == |files|
  {
    if files == [] then objects
    else Written(objects, ids[..|ids| - 1], files[..|files| - 1])[ids[|ids| - 1] := files[|files| - 1].data]
  }

  /** Stores every file in turn. A refused name ends the upload; the files before it
      stay stored. */
  method UploadWorkspaceFiles(store: MemoryArtifactStore, place: Place, files: seq<File>)
    returns (r: Result<seq<string>, ArtifactError>)
    modifies store
    ensures var done := files[..Leading(place, files)];
            && store.objects == Written(old(store.objects), Keys(place, done), done)
            && r == if |done| == |files| then Ok(Keys(place, files)) else Err(ParentSegment)
  {
    hide ArtifactKey, Written;
    var ids: seq<string> := [];
    ghost var before := store.objects;
    NothingWritten(before);
    for i := 0 to |files|
      invariant i <= Leading(place, files)
      invariant ids == Keys(place, files[..i])
      invariant store.objects == Written(before, ids, files[..i])
    {
      var put := store.Put(place, files[i].name, files[i].data);
      if put.Err? {
        OnlyError(place, files[i].name);
        return Err(put.error);
      }
      WriteOne(before, ids, files[..i], put.value, files[i]);
      assert files[..i] + [files[i]] == files[..i + 1];
      ids := ids + [put.value];
    }
    assert files[..|files|] == files;
    return Ok(ids);
  }

  lemma OnlyError(place: Place, name: string)
    requires ArtifactKey(place, name).Err?
    ensures ArtifactKey(place, name).error == ParentSegment
  {}

  lemma NothingWritten(objects: map<string, Bytes>)
    ensures Written(objects, [], []) == objects
  {}

  lemma WriteOne(objects: map<string, Bytes>, ids: seq<string>, files: seq<File>, id: string, file: File)
    requires |ids| == |files|
    ensures Written(objects, ids + [id], files + [file]) == Written(objects, ids, files)[id := file.data]
  {
    assert (ids + [id])[..|ids|] == ids && (files + [file])[..|files|] == files;
  }

  /** Other keys hold what they held. */
  lemma {:induction false} OthersKept(objects: map<string, Bytes>, ids: seq<string>, files: seq<File>, id: string)
    requires |ids| == |files| && id !in ids
    ensures id in Written(objects, ids, files) <==> id in objects
    ensures id in objects ==> Written(objects, ids, files)[id] == objects[id]
  {
    if files != [] { OthersKept(objects, ids[..|ids| - 1], files[..|files| - 1], id); }
  }

  /** A written key holds what the last file under that key said. */
  lemma {:induction false} LastWriteWins(objects: map<string, Bytes>, ids: seq<string>, files: seq<File>, k: nat)
    requires |ids| == |files| && k < |ids| && forall l :: k < l < |ids| ==> ids[l] != ids[k]
    ensures ids[k] in Written(objects, ids, files) && Written(objects, ids, files)[ids[k]] == files[k].data
  {
    var n := |ids| - 1;
    if k < n { LastWriteWins(objects, ids[..n], files[..n], k); }
  }

  /** An upload whose normalised names are distinct loses nothing: its ids are pairwise
      distinct and each gives its own bytes back. */
  lemma UploadLosesNothing(objects: map<string, Bytes>, place: Place, files: seq<File>, j: nat)
    requires j < |files|
    requires forall f :: f in files ==> ArtifactKey(place, f.name).Ok?
    requires forall i, k :: 0 <= i < k < |files| ==> Normal(files[i].name) != Normal(files[k].name)
    ensures var ids := Keys(place, files);
            && (forall k :: 0 <= k < |ids| && k != j ==> ids[k] != ids[j])
            && ids[j] in Written(objects, ids, files) && Written(objects, ids, files)[ids[j]] == files[j].data
  {
    var ids := Keys(place, files);
    forall k | 0 <= k < |ids| && k != j ensures ids[k] != ids[j] {
      SamePlaceCollideIff(place, files[k].name, files[j].name);
    }
    LastWriteWins(objects, ids, files, j);
  }

  /** Two files share an id exactly when their normalised names coincide, and then the
      id gives the bytes of the later one: the condition above is exact. */
  lemma CollisionKeepsTheLater(objects: map<string, Bytes>, place: Place, files: seq<File>, i: nat, j: nat)
    requires i < j < |files|
    requires forall f :: f in files ==> ArtifactKey(place, f.name).Ok?
    requires forall k :: j < k < |files| ==> Normal(files[k].name) != Normal(files[j].name)
    ensures var ids := Keys(place, files);
            && (ids[i] == ids[j] <==> Normal(files[i].name) == Normal(files[j].name))
            && ids[j] in Written(objects, ids, files) && Written(objects, ids, files)[ids[j]] == files[j].data
  {
    var ids := Keys(place, files);
    forall k | 0 <= k < |ids| ensures ids[k] == ids[j] <==> Normal(files[k].name) == Normal(files[j].name) {
      SamePlaceCollideIff(place, files[k].name, files[j].name);
    }
    LastWriteWins(objects, ids, files, j);
  }

  /** No object of another group, job or subtask appears, changes or goes. */
  lemma UploadStaysInPlace(objects: map<string, Bytes>, place: Place, files: seq<File>, other: Place, name: string)
    requires place.SlashFree() && other.SlashFree() && other != place && ArtifactKey(other, name).Ok?
    requires forall f :: f in files ==> ArtifactKey(place, f.name).Ok?
    ensures var id, after := ArtifactKey(other, name).value, Written(objects, Keys(place, files), files);
            (id in after <==> id in objects) && (id in objects ==> after[id] == objects[id])
  {
    var ids := Keys(place, files);
    forall k | 0 <= k < |ids| ensures Ok(ids[k]) != ArtifactKey(other, name) {
      KeysCollideIff(place, files[k].name, other, name);
    }
    OthersKept(objects, ids, files, ArtifactKey(other, name).value);
  }
}
