/**
Album merging: updates whose messages share a media group are folded into the first of them.
The messages are shared heap objects; merging writes into them.
*/
module MediaGroups {

  type Photo = string

  datatype MediaFile = MediaFile(fileID: string, fileName: string)

  datatype OptionalFile = NoFile | File(file: MediaFile)

  class Message {
    const mediaGroupID: string
    const document: OptionalFile
    const video: OptionalFile
    var photo: seq<Photo>
    var caption: string
    var extraFiles: seq<MediaFile>

    constructor (mediaGroupID: string, document: OptionalFile, video: OptionalFile, photo: seq<Photo>,
                 caption: string)
      ensures this.mediaGroupID == mediaGroupID && this.document == document && this.video == video
      ensures this.photo == photo && this.caption == caption && extraFiles == []
    {
      this.mediaGroupID, this.document, this.video := mediaGroupID, document, video;
      this.photo, this.caption, this.extraFiles := photo, caption, [];
    }

    function View(): Media
      reads this
    {
      Media(mediaGroupID, document, video, photo, caption, extraFiles)
    }
  }

  /** What a message holds. */
  datatype Media = Media(
    gid: string, document: OptionalFile, video: OptionalFile,
    photo: seq<Photo>, caption: string, extraFiles: seq<MediaFile>)

  datatype Update = Update(id: nat, message: Message?)

  function Gid(u: Update): string {
    if u.message == null then "" else u.message.mediaGroupID
  }

  /** Contents at one moment, position by position; `NOTHING` for an update without a message. */
  const NOTHING := Media("", NoFile, NoFile, [], "", [])

  ghost function ViewOf(u: Update): Media
    reads u.message
  {
    if u.message == null then NOTHING else u.message.View()
  }

  ghost function Messages(us: seq<Update>): set<object> {
    set i | 0 <= i < |us| && us[i].message != null :: us[i].message
  }

  ghost function Views(us: seq<Update>): (r: seq<Media>)
    reads Messages(us)
    ensures |r| == |us|
  {
    seq(|us|, i requires 0 <= i < |us| reads Messages(us) => ViewOf(us[i]))
  }

  /** The updates have a message object each. */
  ghost predicate Separate(us: seq<Update>) {
    forall i, j | 0 <= i < j < |us| && us[i].message != null :: us[i].message != us[j].message
  }

  // ---------- What merging gives

  predicate Occurs(us: seq<Update>, gid: string) {
    exists j :: 0 <= j < |us| && Gid(us[j]) == gid
  }

  /** The update stays: it is in no group, or the first of its group. */
  predicate IsKept(us: seq<Update>, i: nat)
    requires i < |us|
  {
    Gid(us[i]) == "" || !Occurs(us[..i], Gid(us[i]))
  }

  function Kept(us: seq<Update>): seq<Update> {
    if us == [] then []
    else Kept(us[..|us| - 1]) + (if IsKept(us, |us| - 1) then [us[|us| - 1]] else [])
  }

  function Members(vs: seq<Media>, gid: string): seq<Media> {
    if vs == [] then []
    else Members(vs[..|vs| - 1], gid) + (if vs[|vs| - 1].gid == gid then [vs[|vs| - 1]] else [])
  }

  function Photos(ms: seq<Media>): seq<Photo> {
    if ms == [] then [] else Photos(ms[..|ms| - 1]) + ms[|ms| - 1].photo
  }

  function FilesOf(m: Media): seq<MediaFile> {
    (if m.document.File? then [m.document.file] else []) + (if m.video.File? then [m.video.file] else [])
  }

  function Files(ms: seq<Media>): seq<MediaFile> {
    if ms == [] then [] else Files(ms[..|ms| - 1]) + FilesOf(ms[|ms| - 1])
  }

  /** The first caption that is not empty. */
  function FirstCaption(ms: seq<Media>): string {
    if ms == [] then ""
    else if FirstCaption(ms[..|ms| - 1]) != "" then FirstCaption(ms[..|ms| - 1])
    else ms[|ms| - 1].caption
  }

  /**
  The album of a group: its first message, with everyone's photos, the first caption and the
  files of the others.
  */
  function Album(ms: seq<Media>): Media
    requires ms != []
  {
    ms[0].(photo := Photos(ms), caption := FirstCaption(ms), extraFiles := ms[0].extraFiles + Files(ms[1..]))
  }

  /** An album with one more message. */
  function Plus(a: Media, m: Media): Media {
    a.(photo := a.photo + m.photo, caption := if a.caption == "" then m.caption else a.caption,
       extraFiles := a.extraFiles + FilesOf(m))
  }

  /**
  What the `i`-th update holds once the first `k` have been merged: the album so far if it is
  the first of its group, else what it held.
  */
  function Merged(us: seq<Update>, vs: seq<Media>, k: nat, i: nat): Media
    requires i < |us| == |vs| && k <= |us|
  {
    var ms := Members(vs[..k], Gid(us[i]));
    if i < k && Gid(us[i]) != "" && IsKept(us, i) && ms != [] then Album(ms) else vs[i]
  }

  predicate Matches(us: seq<Update>, vs: seq<Media>) {
    |us| == |vs| && forall i | 0 <= i < |us| :: vs[i].gid == Gid(us[i])
  }

  lemma MembersNext(vs: seq<Media>, k: nat, gid: string)
    requires k < |vs|
    ensures Members(vs[..k + 1], gid) == Members(vs[..k], gid) + if vs[k].gid == gid then [vs[k]] else []
  {
    assert vs[..k + 1][..k] == vs[..k];
  }

  lemma AlbumNext(ms: seq<Media>, m: Media)
    requires ms != []
    ensures Album(ms + [m]) == Plus(Album(ms), m)
    ensures
      var a, more := Album(ms), Album(ms + [m]);
      && more.gid == a.gid && more.document == a.document && more.video == a.video
      && more.photo == a.photo + m.photo
      && more.caption == (if a.caption != "" then a.caption else m.caption)
      && more.extraFiles == a.extraFiles + (if m.document.File? then [m.document.file] else [])
                                         + (if m.video.File? then [m.video.file] else [])
  {
    assert (ms + [m])[..|ms|] == ms;
    assert (ms + [m])[1..] == ms[1..] + [m];
    assert (ms[1..] + [m])[..|ms| - 1] == ms[1..];
    assert ms[0].extraFiles + (Files(ms[1..]) + FilesOf(m)) == ms[0].extraFiles + Files(ms[1..]) + FilesOf(m);
  }

  lemma AlbumOfOne(m: Media)
    ensures Album([m]) == m
  {
    assert [m][..0] == [] && [m][1..] == [];
    assert [] + m.photo == m.photo && m.extraFiles + [] == m.extraFiles;
    var none: seq<Media> := [];
    assert [m][..0] == none && [m][1..] == none;
    assert Photos(none) == [] && FirstCaption(none) == "" && Files(none) == [];
  }

  lemma OccursBefore(us: seq<Update>, k: nat, gid: string)
    requires k <= |us|
    ensures Occurs(us[..k], gid) <==> exists j :: 0 <= j < k && Gid(us[j]) == gid
  {
    assert forall j | 0 <= j < k :: us[..k][j] == us[j];
  }

  lemma {:induction false} MembersOccur(us: seq<Update>, vs: seq<Media>, gid: string)
    requires Matches(us, vs)
    ensures Members(vs, gid) != [] <==> Occurs(us, gid)
  {
    if us != [] {
      var n := |us| - 1;
      MembersOccur(us[..n], vs[..n], gid);
      OccursBefore(us, n, gid);
      assert Members(vs, gid) != [] <==> Members(vs[..n], gid) != [] || Gid(us[n]) == gid;
    }
  }

  /** Merging one more update changes what the first of its group holds, and nothing else. */
  lemma MergedNext(us: seq<Update>, vs: seq<Media>, k: nat, i: nat)
    requires i < |us| == |vs| && k < |us| && Matches(us, vs)
    ensures
      Merged(us, vs, k + 1, i) ==
      if i < k && Gid(us[i]) != "" && Gid(us[i]) == Gid(us[k]) && IsKept(us, i) then Plus(Merged(us, vs, k, i), vs[k])
      else Merged(us, vs, k, i)
  {
    hide Album, IsKept, Members;
    MembersNext(vs, k, Gid(us[i]));
    var ms := Members(vs[..k], Gid(us[i]));
    assert ms + [] == ms;
    MembersOccur(us[..k], vs[..k], Gid(us[i]));
    if i < k {
      assert us[..k][i] == us[i];
      AlbumNext(ms, vs[k]);
    } else if i == k {
      KeptIsFirst(us, k);
      assert [] + [vs[k]] == [vs[k]];
      AlbumOfOne(vs[k]);
    }
  }

  lemma KeptIsFirst(us: seq<Update>, k: nat)
    requires k < |us|
    ensures IsKept(us, k) && Gid(us[k]) != "" ==> !Occurs(us[..k], Gid(us[k]))
  {
  }

  // ---------- The algorithm

  lemma FilesJoined(files: seq<MediaFile>, m: Media)
    ensures
      var more := if m.document.File? then files + [m.document.file] else files;
      files + FilesOf(m) == if m.video.File? then more + [m.video.file] else more
  {
  }

  /** Takes over the media of a later message of the same album. */
  method Absorb(target: Message, m: Message)
    requires target != m
    modifies target
    ensures target.View() == Plus(old(target.View()), m.View())
    ensures target.photo == old(target.photo) + m.photo
    ensures target.caption == if old(target.caption) != "" then old(target.caption) else m.caption
    ensures target.extraFiles == old(target.extraFiles) + (if m.document.File? then [m.document.file] else [])
                                                        + (if m.video.File? then [m.video.file] else [])
  {
    hide FilesOf;
    FilesJoined(target.extraFiles, m.View());
    assert m.photo == [] ==> target.photo + m.photo == target.photo;
    if |m.photo| > 0 {
      target.photo := target.photo + m.photo;
    }
    if m.document.File? {
      target.extraFiles := target.extraFiles + [MediaFile(m.document.file.fileID, m.document.file.fileName)];
    }
    if m.video.File? {
      target.extraFiles := target.extraFiles + [MediaFile(m.video.file.fileID, m.video.file.fileName)];
    }
    if target.caption == "" && m.caption != "" {
      target.caption := m.caption;
    }
  }

  /** Every message holds what merging the first `k` updates gives. */
  ghost predicate Hold(us: seq<Update>, vs: seq<Media>, k: nat)
    requires |us| == |vs| && k <= |us|
    reads Messages(us)
  {
    forall i | 0 <= i < |us| && us[i].message != null :: us[i].message.View() == Merged(us, vs, k, i)
  }

  /** `seen` finds, for each group among the first `k` updates, its first one in the output. */
  ghost predicate Finds(us: seq<Update>, k: nat, merged: seq<Update>, seen: map<string, nat>, first: map<string,
                        nat>) {
    && k <= |us| && seen.Keys == first.Keys
    && (forall g | g in seen ::
          && g != "" && seen[g] < |merged| && first[g] < k
          && merged[seen[g]] == us[first[g]] && Gid(us[first[g]]) == g && IsKept(us, first[g]))
    && (forall j | 0 <= j < k && Gid(us[j]) != "" :: Gid(us[j]) in seen)
  }

  lemma KeptNext(us: seq<Update>, k: nat)
    requires k < |us|
    ensures Kept(us[..k + 1]) == Kept(us[..k]) + if IsKept(us, k) then [us[k]] else []
  {
    assert us[..k + 1][..k] == us[..k];
  }

  /** The update has no message, or one in no group, or the first one of its group. */
  ghost predicate Stays(us: seq<Update>, i: nat)
    requires i < |us|
  {
    || us[i].message == null || us[i].message.mediaGroupID == ""
    || forall j | 0 <= j < i && us[j].message != null :: us[j].message.mediaGroupID != us[i].message.mediaGroupID
  }

  /** `kept` holds the updates that stay, of the first `n`, in order; `at` says where they are. */
  ghost predicate Lists(us: seq<Update>, n: nat, kept: seq<Update>, at: seq<nat>) {
    && n <= |us| && |at| == |kept|
    && (forall k | 0 <= k < |at| :: at[k] < n && kept[k] == us[at[k]])
    && (forall k, m | 0 <= k < m < |at| :: at[k] < at[m])
    && (forall i | 0 <= i < n :: i in at <==> Stays(us, i))
  }

  lemma ListsNext(us: seq<Update>, n: nat, kept: seq<Update>, at: seq<nat>)
    requires n < |us| && Lists(us, n, kept, at)
    ensures if Stays(us, n) then Lists(us, n + 1, kept + [us[n]], at + [n]) else Lists(us, n + 1, kept, at)
  {
    hide Stays;
  }

  lemma KeptMeans(us: seq<Update>, i: nat)
    requires i < |us|
    ensures IsKept(us, i) <==> Stays(us, i)
  {
    OccursBefore(us, i, Gid(us[i]));
  }

  /** What is kept of the first `n` updates. */
  lemma {:induction false} KeptAre(us: seq<Update>, n: nat) returns (at: seq<nat>)
    requires n <= |us|
    ensures Lists(us, n, Kept(us[..n]), at)
  {
    hide Lists, Stays, IsKept, Kept;
    if n == 0 {
      at := [];
      NothingKept(us);
    } else {
      at := KeptAre(us, n - 1);
      KeptNext(us, n - 1);
      ListsNext(us, n - 1, Kept(us[..n - 1]), at);
      KeptMeans(us, n - 1);
      if Stays(us, n - 1) {
        at := at + [n - 1];
      } else {
        assert Kept(us[..n - 1]) + [] == Kept(us[..n - 1]);
      }
    }
  }

  lemma NothingKept(us: seq<Update>)
    ensures Lists(us, 0, Kept(us[..0]), [])
  {
  }

  lemma KeptOnce(us: seq<Update>, i: nat, j: nat)
    requires i < |us| && j < |us| && Gid(us[i]) == Gid(us[j]) != "" && IsKept(us, i) && IsKept(us, j)
    ensures i == j
  {
    OccursBefore(us, i, Gid(us[i]));
    OccursBefore(us, j, Gid(us[j]));
  }

  lemma FindsNext(us: seq<Update>, k: nat, merged: seq<Update>, seen: map<string, nat>, first: map<string, nat>)
    requires k < |us| && Finds(us, k, merged, seen, first)
    ensures Gid(us[k]) in seen ==> !IsKept(us, k) && Finds(us, k + 1, merged, seen, first)
    ensures Gid(us[k]) !in seen ==> IsKept(us, k)
    ensures Gid(us[k]) == "" ==> Finds(us, k + 1, merged + [us[k]], seen, first)
    ensures Gid(us[k]) !in seen && Gid(us[k]) != "" ==>
              Finds(us, k + 1, merged + [us[k]], seen[Gid(us[k]) := |merged|], first[Gid(us[k]) := k])
  {
    OccursBefore(us, k, Gid(us[k]));
  }

  lemma GidsOfViews(us: seq<Update>)
    ensures Matches(us, Views(us))
  {
  }

  lemma StartMerging(us: seq<Update>)
    ensures Hold(us, Views(us), 0) && Kept(us[..0]) == [] && Finds(us, 0, [], map[], map[])
  {
  }

  /** A kept update takes nothing from its album. */
  lemma NothingAbsorbed(us: seq<Update>, vs: seq<Media>, k: nat)
    requires k < |us| == |vs| && Matches(us, vs)
    requires IsKept(us, k) && Hold(us, vs, k)
    ensures Hold(us, vs, k + 1)
  {
    hide IsKept, Merged;
    forall i | 0 <= i < |us| ensures Merged(us, vs, k + 1, i) == Merged(us, vs, k, i) {
      MergedNext(us, vs, k, i);
      if i < k && Gid(us[i]) != "" && Gid(us[i]) == Gid(us[k]) && IsKept(us, i) {
        KeptOnce(us, i, k);
      }
    }
  }

  /** The message that takes over the media of update `k` is another one, and update `k` has not been written to. */
  lemma FoundTarget(us: seq<Update>, vs: seq<Media>, k: nat, merged: seq<Update>, seen: map<string, nat>,
                    first: map<string, nat>)
    requires Separate(us) && k < |us| == |vs|
    requires Finds(us, k, merged, seen, first) && Hold(us, vs, k) && Gid(us[k]) in seen
    ensures
      var g := Gid(us[k]);
      && seen[g] < |merged| && g in first && first[g] < k && merged[seen[g]] == us[first[g]]
      && Gid(us[first[g]]) == g && IsKept(us, first[g])
      && us[k].message != null && us[first[g]].message != null && us[first[g]].message != us[k].message
      && us[k].message.View() == vs[k] && us[first[g]].message in Messages(us)
  {
  }

  /** The album of update `h` takes over the media of update `k`. */
  method AbsorbInto(ghost us: seq<Update>, ghost vs: seq<Media>, ghost k: nat, ghost h: nat, target: Message,
                    m: Message)
    requires Separate(us) && h < k < |us| == |vs| && Matches(us, vs)
    requires Gid(us[h]) == Gid(us[k]) != "" && IsKept(us, h) && Hold(us, vs, k)
    requires us[h].message == target && us[k].message == m && m.View() == vs[k]
    modifies target
    ensures Hold(us, vs, k + 1)
  {
    hide Merged, IsKept, Plus;
    Absorb(target, m);
    forall i | 0 <= i < |us| && us[i].message != null ensures us[i].message.View() == Merged(us, vs, k + 1, i) {
      MergedNext(us, vs, k, i);
      assert old(us[i].message.View()) == Merged(us, vs, k, i);
      if i < k && Gid(us[i]) == Gid(us[k]) && IsKept(us, i) {
        KeptOnce(us, i, h);
      }
    }
  }

  method MergeMediaGroups(updates: seq<Update>) returns (merged: seq<Update>)
    requires Separate(updates)
    modifies Messages(updates)
    ensures merged == Kept(updates)
    ensures Hold(updates, old(Views(updates)), |updates|)
  {
    hide Kept, IsKept, Merged, Finds, Hold, Separate, Matches, Messages, Views;
    merged := [];
    var seen: map<string, nat> := map[];
    ghost var first: map<string, nat> := map[];
    ghost var vs := Views(updates);
    GidsOfViews(updates);
    StartMerging(updates);
    var k := 0;
    while k < |updates|
      invariant k <= |updates|
      invariant merged == Kept(updates[..k])
      invariant Finds(updates, k, merged, seen, first)
      invariant Hold(updates, vs, k)
    {
      var u := updates[k];
      KeptNext(updates, k);
      FindsNext(updates, k, merged, seen, first);
      if u.message == null || u.message.mediaGroupID == "" {
        NothingAbsorbed(updates, vs, k);
        merged := merged + [u];
        k := k + 1;
        continue;
      }
      var gid := u.message.mediaGroupID;
      if gid in seen {
        FoundTarget(updates, vs, k, merged, seen, first);
        var target := merged[seen[gid]].message;
        AbsorbInto(updates, vs, k, first[gid], target, u.message);
        assert Kept(updates[..k]) + [] == Kept(updates[..k]);
      } else {
        NothingAbsorbed(updates, vs, k);
        seen, first := seen[gid := |merged|], first[gid := k];
        merged := merged + [u];
      }
      k := k + 1;
    }
    assert updates[..k] == updates;
  }

  // ---------- Merging twice

  /** No two updates are in the same group. */
  ghost predicate IsSolo(us: seq<Update>) {
    forall i, j | 0 <= i < j < |us| && Gid(us[i]) != "" :: Gid(us[i]) != Gid(us[j])
  }

  lemma {:induction false} KeptFrom(us: seq<Update>, j: nat)
    requires j < |Kept(us)|
    ensures exists i :: 0 <= i < |us| && us[i] == Kept(us)[j]
  {
    var n := |us| - 1;
    if j < |Kept(us[..n])| {
      KeptFrom(us[..n], j);
      var i :| 0 <= i < n && us[..n][i] == Kept(us[..n])[j];
      assert us[i] == Kept(us)[j];
    } else {
      assert us[n] == Kept(us)[j];
    }
  }

  /** The output has a message object for each update, and one update for each group. */
  lemma {:induction false} KeptIsSolo(us: seq<Update>)
    ensures IsSolo(Kept(us))
    ensures Separate(us) ==> Separate(Kept(us))
  {
    if us != [] {
      var n := |us| - 1;
      var front := Kept(us[..n]);
      KeptIsSolo(us[..n]);
      forall j | 0 <= j < |front| && IsKept(us, n)
        ensures Separate(us) && front[j].message != null ==> front[j].message != us[n].message
        ensures Gid(front[j]) != "" ==> Gid(front[j]) != Gid(us[n])
      {
        KeptFrom(us[..n], j);
      }
    }
  }

  lemma {:induction false} SoloIsKept(us: seq<Update>)
    requires IsSolo(us)
    ensures Kept(us) == us
  {
    if us != [] {
      var n := |us| - 1;
      SoloIsKept(us[..n]);
      OccursBefore(us, n, Gid(us[n]));
      assert us == us[..n] + [us[n]];
    }
  }

  lemma SoloDiffer(us: seq<Update>, i: nat, j: nat)
    requires IsSolo(us) && i < |us| && j < |us| && Gid(us[i]) != ""
    ensures Gid(us[i]) == Gid(us[j]) <==> i == j
  {
  }

  lemma {:induction false} MembersOfSolo(us: seq<Update>, vs: seq<Media>, i: nat, k: nat)
    requires Matches(us, vs) && IsSolo(us) && i < |us| && k <= |us| && Gid(us[i]) != ""
    ensures Members(vs[..k], Gid(us[i])) == if i < k then [vs[i]] else []
  {
    hide Gid;
    if k == 0 {
      assert vs[..k] == [];
    } else {
      hide Members, IsSolo;
      SoloDiffer(us, i, k - 1);
      MembersOfSolo(us, vs, i, k - 1);
      MembersNext(vs, k - 1, Gid(us[i]));
    }
  }

  lemma SoloUnchanged(us: seq<Update>, vs: seq<Media>, i: nat)
    requires Matches(us, vs) && IsSolo(us) && i < |us|
    ensures Merged(us, vs, |us|, i) == vs[i]
  {
    if Gid(us[i]) != "" {
      MembersOfSolo(us, vs, i, |us|);
      AlbumOfOne(vs[i]);
    }
  }

  /**
  What has been merged is left alone by merging: no update goes, and no message changes,
  whatever the messages hold by then.
  */
  lemma MergedStaysMerged(us: seq<Update>, vs: seq<Media>)
    requires Matches(Kept(us), vs)
    ensures Kept(Kept(us)) == Kept(us)
    ensures forall i | 0 <= i < |vs| :: Merged(Kept(us), vs, |vs|, i) == vs[i]
  {
    hide Kept, Merged, IsSolo;
    KeptIsSolo(us);
    SoloIsKept(Kept(us));
    forall i | 0 <= i < |vs| ensures Merged(Kept(us), vs, |vs|, i) == vs[i] {
      SoloUnchanged(Kept(us), vs, i);
    }
  }

  lemma KeptMessages(us: seq<Update>)
    ensures Messages(Kept(us)) <= Messages(us)
  {
    forall j | 0 <= j < |Kept(us)| && Kept(us)[j].message != null ensures Kept(us)[j].message in Messages(us) {
      KeptFrom(us, j);
    }
  }

  /** Merging a second time gives the same updates, and leaves each message holding its album of the first time. */
  method MergeTwice(updates: seq<Update>) returns (once: seq<Update>, twice: seq<Update>)
    requires Separate(updates)
    modifies Messages(updates)
    ensures once == Kept(updates) && twice == Kept(once)
    ensures twice == once
    ensures Hold(updates, old(Views(updates)), |updates|)
  {
    hide Kept, Merged, Separate;
    once := MergeMediaGroups(updates);
    KeptIsSolo(updates);
    KeptMessages(updates);
    ghost var vs := Views(updates);
    twice := MergeAgain(updates, once);
    assert Views(updates) == vs;
  }

  method MergeAgain(ghost updates: seq<Update>, merged: seq<Update>) returns (again: seq<Update>)
    requires merged == Kept(updates) && Separate(merged)
    modifies Messages(merged)
    ensures again == Kept(merged) == merged
    ensures forall i | 0 <= i < |merged| && merged[i].message != null ::
              merged[i].message.View() == old(merged[i].message.View())
  {
    hide Kept, Merged, Separate;
    again := MergeMediaGroups(merged);
    GidsOfViews(merged);
    MergedStaysMerged(updates, old(Views(merged)));
  }

  // ---------- Acknowledging a batch

  /** Where the poller goes on: after the last update it handled. */
  function NextOffset(merged: seq<Update>, offset: nat): nat {
    if merged == [] then offset else merged[|merged| - 1].id + 1
  }

  ghost predicate Rising(us: seq<Update>) {
    forall i, j | 0 <= i < j < |us| :: us[i].id < us[j].id
  }

  /** Of a batch with rising ids, the updates asked for again are the ones behind the last that was kept. */
  lemma {:induction false} RedeliveredAreTrailing(us: seq<Update>, offset: nat, i: nat)
    requires Rising(us) && i < |us|
    ensures us[i].id >= NextOffset(Kept(us), offset) <==> forall j | i <= j < |us| :: !IsKept(us, j)
  {
    hide IsKept;
    var n := |us| - 1;
    if IsKept(us, n) {
      assert us[i].id <= us[n].id;
    } else if i < n {
      assert Kept(us) == Kept(us[..n]);
      RedeliveredAreTrailing(us[..n], offset, i);
      KeptOfPrefix(us);
      assert forall j | i <= j < n :: IsKept(us[..n], j) == IsKept(us, j);
    } else {
      KeptIsLower(us, offset);
    }
  }

  lemma KeptOfPrefix(us: seq<Update>)
    requires us != []
    ensures forall j | 0 <= j < |us| - 1 :: IsKept(us[..|us| - 1], j) == IsKept(us, j)
  {
    forall j | 0 <= j < |us| - 1 ensures us[..|us| - 1][..j] == us[..j] {
    }
  }

  lemma {:induction false} FirstIsKept(us: seq<Update>)
    requires us != []
    ensures Kept(us) != []
  {
    if |us| > 1 {
      FirstIsKept(us[..|us| - 1]);
    }
  }

  lemma KeptIsLower(us: seq<Update>, offset: nat)
    requires Rising(us) && us != [] && !IsKept(us, |us| - 1)
    ensures us[|us| - 1].id >= NextOffset(Kept(us), offset)
  {
    FirstIsKept(us);
    var j := |Kept(us)| - 1;
    KeptFrom(us[..|us| - 1], j);
  }

  /**
  A batch is acknowledged as a whole exactly when its last update is not merged into an earlier
  one; an empty batch leaves the poller where it was.
  */
  lemma AcknowledgedIffLastIsKept(us: seq<Update>, offset: nat)
    requires Rising(us)
    ensures us == [] ==> NextOffset(Kept(us), offset) == offset
    ensures us != [] ==>
              ((forall i | 0 <= i < |us| :: us[i].id < NextOffset(Kept(us), offset)) <==> IsKept(us, |us| - 1))
  {
    if us == [] {
      assert Kept(us) == [];
    } else {
      LastDecides(us, offset);
    }
  }

  lemma LastDecides(us: seq<Update>, offset: nat)
    requires Rising(us) && us != []
    ensures (forall i | 0 <= i < |us| :: us[i].id < NextOffset(Kept(us), offset)) <==> IsKept(us, |us| - 1)
  {
    hide Kept, IsKept;
    var n := |us| - 1;
    RedeliveredAreTrailing(us, offset, n);
    if IsKept(us, n) {
      forall i | 0 <= i < |us| ensures us[i].id < NextOffset(Kept(us), offset) {
        RedeliveredAreTrailing(us, offset, i);
      }
    } else {
      assert us[n].id >= NextOffset(Kept(us), offset);
    }
  }

  /** A batch that ends in an album of two: the second message is asked for again. */
  lemma AlbumAtTheEnd(a: Message, b: Message, id: nat, offset: nat)
    requires a.mediaGroupID == b.mediaGroupID != ""
    ensures
      var us := [Update(id, a), Update(id + 1, b)];
      Kept(us) == [us[0]] && us[1].id >= NextOffset(Kept(us), offset)
  {
    var us := [Update(id, a), Update(id + 1, b)];
    OccursBefore(us, 1, Gid(us[1]));
    assert Gid(us[0]) == Gid(us[1]);
    assert us[..1] == [us[0]] && us[..1][..0] == [] && us[..0] == [];
    assert Kept(us[..1]) == [us[0]];
  }
}
