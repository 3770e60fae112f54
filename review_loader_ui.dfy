/**
 * ReviewLoaderUI (Assets/_Project/ReviewLoaderUI.cs): lists the review
 * folders under the reviews root and loads the one the user selects.
 *
 * The file system is a parameter: each sub-directory of the root comes with
 * the .json and .mp4 files a recursive search finds in it, in the order the
 * search returns them. PlaytestReviewerRuntime.LoadReview is recorded as a
 * call, and Debug.Log as a line of the log.
 */
module ReviewLoading {
  import opened Base
  import opened Text
  import opened DotNetPath

  /** One sub-directory of the root and what the two recursive searches found in it. */
  datatype Directory = Directory(path: string, jsons: seq<string>, mp4s: seq<string>)

  datatype ReviewItem = ReviewItem(name: string, trackPath: string, videoPath: string)

  /** A LoadReview(trackPath, videoPath) call. */
  datatype Load = Load(trackPath: string, videoPath: string)

  /** A directory is listed only when it holds at least one track file and one video. */
  predicate Qualifies(d: Directory)
  {
    |d.jsons| > 0 && |d.mp4s| > 0
  }

  /** The item of a qualifying directory: its own name, its first track and its first video. */
  function ItemOf(d: Directory): (item: ReviewItem)
    requires Qualifies(d)
    ensures item.trackPath in d.jsons && item.videoPath in d.mp4s
  {
    ReviewItem(GetFileName(d.path), d.jsons[0], d.mp4s[0])
  }

  /** The item's name is the last component of the directory's path: a suffix with no separator in it. */
  lemma ItemNameIsDirectoryName(d: Directory)
    requires Qualifies(d)
    ensures EndsWith(d.path, ItemOf(d).name)
    ensures forall i :: 0 <= i < |ItemOf(d).name| ==> !IsDirectoryEnd(ItemOf(d).name[i])
  {
  }

  /** The directories PopulateList lists, in directory order. */
  function Listed(dirs: seq<Directory>): (r: seq<Directory>)
    ensures |r| <= |dirs|
    ensures forall k :: 0 <= k < |r| ==> Qualifies(r[k])
    decreases |dirs|
  {
    if dirs == [] then []
    else
      var front := Listed(dirs[..|dirs| - 1]);
      var d := dirs[|dirs| - 1];
      if Qualifies(d) then front + [d] else front
  }

  /** The items PopulateList builds: one per listed directory, in the same order. */
  function ItemsOf(dirs: seq<Directory>): (items: seq<ReviewItem>)
    ensures |items| == |Listed(dirs)| <= |dirs|
    ensures forall k :: 0 <= k < |items| ==> items[k] == ItemOf(Listed(dirs)[k])
  {
    var listed := Listed(dirs);
    seq(|listed|, k requires 0 <= k < |listed| => ItemOf(listed[k]))
  }

  /** The listing of two runs of directories is that of the first run followed by that of the second. */
  lemma {:induction false} ListedAppend(a: seq<Directory>, b: seq<Directory>)
    ensures Listed(a + b) == Listed(a) + Listed(b)
    decreases |b|
  {
    if b != [] {
      var b' := b[..|b| - 1];
      assert (a + b)[..|a + b| - 1] == a + b';
      ListedAppend(a, b');
    } else {
      assert a + b == a;
    }
  }

  /** A directory is listed exactly when it is one of the directories and qualifies. */
  lemma {:induction false} ListedMembers(dirs: seq<Directory>, d: Directory)
    ensures d in Listed(dirs) <==> d in dirs && Qualifies(d)
    decreases |dirs|
  {
    if dirs != [] {
      var n := |dirs| - 1;
      ListedMembers(dirs[..n], d);
      assert dirs == dirs[..n] + [dirs[n]];
    }
  }

  /** An item is listed exactly when some qualifying directory produces it. */
  lemma ItemsOfMembers(dirs: seq<Directory>, item: ReviewItem)
    ensures item in ItemsOf(dirs) <==> exists d :: d in dirs && Qualifies(d) && ItemOf(d) == item
  {
    var listed := Listed(dirs);
    if item in ItemsOf(dirs) {
      var k :| 0 <= k < |listed| && ItemsOf(dirs)[k] == item;
      ListedMembers(dirs, listed[k]);
    }
    if exists d :: d in dirs && Qualifies(d) && ItemOf(d) == item {
      var d :| d in dirs && Qualifies(d) && ItemOf(d) == item;
      ListedMembers(dirs, d);
      var k :| 0 <= k < |listed| && listed[k] == d;
      assert ItemsOf(dirs)[k] == item;
    }
  }

  /** Every directory is listed, and so yields an item, exactly when all of them qualify. */
  lemma {:induction false} AllListedIffAllQualify(dirs: seq<Directory>)
    ensures |Listed(dirs)| == |dirs| <==> forall i :: 0 <= i < |dirs| ==> Qualifies(dirs[i])
    decreases |dirs|
  {
    if dirs != [] {
      var n := |dirs| - 1;
      var front := dirs[..n];
      AllListedIffAllQualify(front);
      assert forall i :: 0 <= i < n ==> front[i] == dirs[i];
    }
  }

  /** Examining one more directory appends its item when it qualifies. */
  lemma ItemsOfStep(dirs: seq<Directory>, i: nat)
    requires i < |dirs|
    ensures ItemsOf(dirs[..i + 1]) == ItemsOf(dirs[..i]) + (if Qualifies(dirs[i]) then [ItemOf(dirs[i])] else [])
  {
    assert dirs[..i + 1][..i] == dirs[..i];
  }

  /** The LoadReview calls one pass over the selection makes. */
  function LoadsOf(sel: seq<ReviewItem>): (loads: seq<Load>)
    ensures |loads| == |sel|
    ensures forall k :: 0 <= k < |sel| ==> loads[k] == Load(sel[k].trackPath, sel[k].videoPath)
  {
    seq(|sel|, k requires 0 <= k < |sel| => Load(sel[k].trackPath, sel[k].videoPath))
  }

  /** The log line for one loaded review. */
  function LoadedMessage(item: ReviewItem): string
  {
    "[ReviewLoaderUI] Loaded review \U{201C}" + item.name + "\U{201D}"
  }

  function MessagesOf(sel: seq<ReviewItem>): (lines: seq<string>)
    ensures |lines| == |sel|
    ensures forall k :: 0 <= k < |sel| ==> lines[k] == LoadedMessage(sel[k])
  {
    seq(|sel|, k requires 0 <= k < |sel| => LoadedMessage(sel[k]))
  }

  /** Loading two runs of a selection makes the calls of the first run, then those of the second. */
  lemma LoadsOfAppend(a: seq<ReviewItem>, b: seq<ReviewItem>)
    ensures LoadsOf(a + b) == LoadsOf(a) + LoadsOf(b)
  {
    assert forall k :: 0 <= k < |a + b| ==> (a + b)[k] == if k < |a| then a[k] else b[k - |a|];
  }

  /** Likewise for the log lines. */
  lemma MessagesOfAppend(a: seq<ReviewItem>, b: seq<ReviewItem>)
    ensures MessagesOf(a + b) == MessagesOf(a) + MessagesOf(b)
  {
    assert forall k :: 0 <= k < |a + b| ==> (a + b)[k] == if k < |a| then a[k] else b[k - |a|];
  }

  /** The fixed text before the name in a loaded-review line. */
  const LoadedPrefix := "[ReviewLoaderUI] Loaded review \U{201C}"

  /**
   * Call k and log line k are about the same item: the line names it, in
   * quotes, right after the fixed prefix, and the call loads its two files.
   */
  lemma LoadAndMessageAgree(sel: seq<ReviewItem>, k: nat)
    requires k < |sel|
    ensures var m := MessagesOf(sel)[k];
      |m| == |LoadedPrefix| + |sel[k].name| + 1
      && m[..|LoadedPrefix|] == LoadedPrefix
      && m[|LoadedPrefix|..|LoadedPrefix| + |sel[k].name|] == sel[k].name
      && m[|m| - 1] == '\U{201D}'
    ensures LoadsOf(sel)[k].trackPath == sel[k].trackPath && LoadsOf(sel)[k].videoPath == sel[k].videoPath
  {
    var m := MessagesOf(sel)[k];
    assert m == LoadedPrefix + sel[k].name + "\U{201D}";
  }

  /**
   * Selecting from the list PopulateList built loads only files the
   * searches found: a track file and a video of one qualifying directory.
   */
  lemma LoadsComeFromListedDirectories(dirs: seq<Directory>, sel: seq<ReviewItem>)
    requires forall k :: 0 <= k < |sel| ==> sel[k] in ItemsOf(dirs)
    ensures forall l :: l in LoadsOf(sel) ==>
      exists d :: d in dirs && Qualifies(d) && l.trackPath in d.jsons && l.videoPath in d.mp4s
  {
    forall l | l in LoadsOf(sel)
      ensures exists d :: d in dirs && Qualifies(d) && l.trackPath in d.jsons && l.videoPath in d.mp4s
    {
      var k :| 0 <= k < |sel| && LoadsOf(sel)[k] == l;
      ItemsOfMembers(dirs, sel[k]);
      var d :| d in dirs && Qualifies(d) && ItemOf(d) == sel[k];
      assert l.trackPath in d.jsons && l.videoPath in d.mp4s;
    }
  }

  /** A single selection, the list's only mode, loads that review twice in a row. */
  lemma SingleSelectionLoadsTwice(item: ReviewItem)
    ensures LoadsOf([item]) + LoadsOf([item]) == [Load(item.trackPath, item.videoPath), Load(item.trackPath, item.videoPath)]
  {
  }

  class ReviewLoaderUI {
    /** The list the ListView shows. */
    var items: seq<ReviewItem>
    /** How many times the ListView was rebuilt. */
    var rebuilds: nat
    var loads: seq<Load>
    var log: seq<string>

    constructor ()
      ensures items == [] && rebuilds == 0 && loads == [] && log == []
    {
      items := [];
      rebuilds := 0;
      loads := [];
      log := [];
    }

    /**
     * PopulateList: the list is emptied first; with a null or empty root it
     * stays empty and the view is not rebuilt; otherwise it holds the items
     * of the qualifying directories, in directory order.
     */
    method PopulateList(root: Option<string>, dirs: seq<Directory>)
      modifies this
      ensures root.None? || root.value == "" ==> items == [] && rebuilds == old(rebuilds)
      ensures root.Some? && root.value != "" ==> items == ItemsOf(dirs) && rebuilds == old(rebuilds) + 1
      ensures loads == old(loads) && log == old(log)
    {
      items := [];
      if root.None? || root.value == "" {
        return;
      }
      var i := 0;
      while i < |dirs|
        invariant 0 <= i <= |dirs|
        invariant items == ItemsOf(dirs[..i])
        invariant rebuilds == old(rebuilds) && loads == old(loads) && log == old(log)
      {
        var d := dirs[i];
        ItemsOfStep(dirs, i);
        if |d.jsons| == 0 || |d.mp4s| == 0 {
          i := i + 1;
          continue;
        }
        items := items + [ReviewItem(GetFileName(d.path), d.jsons[0], d.mp4s[0])];
        i := i + 1;
      }
      assert dirs[..i] == dirs;
      rebuilds := rebuilds + 1;
    }

    /** OnSelection: two identical passes over the selection, each loading and logging every item. */
    method OnSelection(sel: seq<ReviewItem>)
      modifies this
      ensures loads == old(loads) + LoadsOf(sel) + LoadsOf(sel)
      ensures log == old(log) + MessagesOf(sel) + MessagesOf(sel)
      ensures items == old(items) && rebuilds == old(rebuilds)
    {
      var i := 0;
      while i < |sel|
        invariant 0 <= i <= |sel|
        invariant loads == old(loads) + LoadsOf(sel[..i])
        invariant log == old(log) + MessagesOf(sel[..i])
        invariant items == old(items) && rebuilds == old(rebuilds)
      {
        loads := loads + [Load(sel[i].trackPath, sel[i].videoPath)];
        log := log + [LoadedMessage(sel[i])];
        i := i + 1;
      }
      assert sel[..i] == sel;
      var j := 0;
      while j < |sel|
        invariant 0 <= j <= |sel|
        invariant loads == old(loads) + LoadsOf(sel) + LoadsOf(sel[..j])
        invariant log == old(log) + MessagesOf(sel) + MessagesOf(sel[..j])
        invariant items == old(items) && rebuilds == old(rebuilds)
      {
        loads := loads + [Load(sel[j].trackPath, sel[j].videoPath)];
        log := log + [LoadedMessage(sel[j])];
        j := j + 1;
      }
      assert sel[..j] == sel;
    }
  }
}
