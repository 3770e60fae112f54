/**
 * ReviewImporter (Assets/_Project/ReviewImporter.cs): the editor menu command
 * that copies a recorded track file and video into a review folder of the
 * project and creates a Review asset pointing at the copies.
 *
 * The two file dialogs' answers are parameters ("" when cancelled), and so
 * is Application.dataPath. The class Editor holds what the command changes:
 * the AssetDatabase's folders, the file system's directories and files, the
 * imported and created assets, and the log and dialog lines.
 */
module ReviewImporting {
  import opened Base
  import opened Text
  import opened DotNetPath

  /** PathManager.ReviewOutputPath (Assets/_Project/Utility/PathManager.cs): the main folder ends in '/' and the suffix starts with one. */
  const MainFolder := "Assets/_Project/"
  const ReviewOutputPath := MainFolder + "/ReviewOutput"

  /** The Review asset: where its track collection and its video live. */
  datatype Review = Review(tracksPath: string, videoPath: string)

  /** An AssetDatabase.CreateFolder(parent, name) call. */
  datatype CreateCall = CreateCall(parent: string, name: string)

  /** The review folder for a video: named after the video file, inside ReviewOutputPath. */
  function ReviewFolderOf(videoFilePath: string): (r: string)
    ensures StartsWith(r, ReviewOutputPath)
    ensures GetFileNameWithoutExtension(videoFilePath) == "" ==> r == ReviewOutputPath
    ensures GetFileNameWithoutExtension(videoFilePath) != "" ==>
      r == ReviewOutputPath + "\\" + GetFileNameWithoutExtension(videoFilePath)
  {
    var name := GetFileNameWithoutExtension(videoFilePath);
    assert name != "" ==> !IsRooted(name) by {
      if name != "" {
        assert GetFileName(videoFilePath)[0] == name[0];
      }
    }
    Combine(ReviewOutputPath, name)
  }

  /** The Review asset's path: the folder's own name with ".asset", inside the folder. */
  function ReviewAssetPathOf(videoFilePath: string): (r: string)
    ensures var folder := ReviewFolderOf(videoFilePath);
      r == folder + "\\" + GetFileNameWithoutExtension(videoFilePath) + ".asset"
  {
    var name := GetFileNameWithoutExtension(videoFilePath);
    var folder := ReviewFolderOf(videoFilePath);
    assert !IsRooted(name + ".asset") by {
      if name != "" {
        assert GetFileName(videoFilePath)[0] == name[0];
      }
    }
    Combine(folder, name + ".asset")
  }

  /** The project root: Application.dataPath without its trailing "Assets". */
  function ProjectRoot(dataPath: string): (r: string)
    requires |dataPath| >= |"Assets"|
    ensures |r| == |dataPath| - |"Assets"| && StartsWith(dataPath, r)
    ensures EndsWith(dataPath, "Assets") ==> r + "Assets" == dataPath
  {
    dataPath[..|dataPath| - |"Assets"|]
  }

  /** The file-system directory of an asset folder: the folder under the project root. */
  function DestinationRoot(destAssetFolder: string, dataPath: string): string
    requires |dataPath| >= |"Assets"|
  {
    Combine(ProjectRoot(dataPath), destAssetFolder)
  }

  /** Where File.Copy puts a copy of the source file: its own file name under the project's copy of the folder. */
  function CopyDestination(sourcePath: string, destAssetFolder: string, dataPath: string): string
    requires |dataPath| >= |"Assets"|
  {
    Combine(DestinationRoot(destAssetFolder, dataPath), GetFileName(sourcePath))
  }

  /** The copy keeps the source's file name. */
  lemma CopyKeepsFileName(sourcePath: string, destAssetFolder: string, dataPath: string)
    requires |dataPath| >= |"Assets"| && GetFileName(sourcePath) != ""
    ensures GetFileName(CopyDestination(sourcePath, destAssetFolder, dataPath)) == GetFileName(sourcePath)
  {
    CombineFileName(DestinationRoot(destAssetFolder, dataPath), GetFileName(sourcePath));
  }

  /** The asset path CopyIntoFolder returns: the file name inside the asset folder, with every '\\' turned into '/'. */
  function AssetPathOf(sourcePath: string, destAssetFolder: string): (r: string)
    ensures '\\' !in r
  {
    ReplaceChar(Combine(destAssetFolder, GetFileName(sourcePath)), '\\', '/')
  }

  /** The asset path still ends in the source's file name, which holds no separator. */
  lemma AssetPathKeepsFileName(sourcePath: string, destAssetFolder: string)
    ensures EndsWith(AssetPathOf(sourcePath, destAssetFolder), GetFileName(sourcePath))
  {
    var name := GetFileName(sourcePath);
    var joined := Combine(destAssetFolder, name);
    assert EndsWith(joined, name);
    assert '\\' !in name by {
      forall k | 0 <= k < |name|
        ensures name[k] != '\\'
      {
        assert !IsDirectoryEnd(name[k]);
      }
    }
    ReplaceKeepsSuffix(joined, '\\', '/', name);
  }

  /** Only the backslashes of the joined path change: every other character stays where it was. */
  lemma AssetPathKeepsOtherCharacters(sourcePath: string, destAssetFolder: string)
    ensures var joined := Combine(destAssetFolder, GetFileName(sourcePath));
      var r := AssetPathOf(sourcePath, destAssetFolder);
      |r| == |joined| && forall i :: 0 <= i < |r| ==> r[i] == (if joined[i] == '\\' then '/' else joined[i])
  {
  }

  /** The folder path made of the first i + 1 pieces, joined with '/' as EnsureFolderExists builds it. */
  function FolderPrefix(parts: seq<string>, i: nat): string
    requires i < |parts|
  {
    if i == 0 then parts[0] else FolderPrefix(parts, i - 1) + "/" + parts[i]
  }

  /** Each prefix is longer than every earlier one, so the prefixes are all different. */
  lemma {:induction false} FolderPrefixGrows(parts: seq<string>, j: nat, i: nat)
    requires j < i < |parts|
    ensures |FolderPrefix(parts, j)| < |FolderPrefix(parts, i)|
    decreases i
  {
    if j < i - 1 {
      FolderPrefixGrows(parts, j, i - 1);
    }
  }

  /** The prefixes are the joins of the first pieces, so the last one is the whole path Split came from. */
  lemma {:induction false} FolderPrefixIsJoin(parts: seq<string>, i: nat)
    requires i < |parts|
    ensures FolderPrefix(parts, i) == Join(parts[..i + 1], '/')
    decreases i
  {
    if i > 0 {
      FolderPrefixIsJoin(parts, i - 1);
      JoinSnoc(parts[..i], parts[i], '/');
      assert parts[..i + 1] == parts[..i] + [parts[i]];
    }
  }

  lemma {:induction false} JoinSnoc(parts: seq<string>, last: string, sep: char)
    requires parts != []
    ensures Join(parts + [last], sep) == Join(parts, sep) + [sep] + last
    decreases |parts|
  {
    if |parts| == 1 {
      assert parts + [last] == [parts[0], last];
      assert [last][1..] == [];
    } else {
      assert (parts + [last])[1..] == parts[1..] + [last];
      JoinSnoc(parts[1..], last, sep);
    }
  }

  lemma LastFolderPrefixIsPath(path: string)
    ensures FolderPrefix(Split(path, '/'), |Split(path, '/')| - 1) == path
  {
    var parts := Split(path, '/');
    FolderPrefixIsJoin(parts, |parts| - 1);
    assert parts[..|parts|] == parts;
    SplitJoin(path, '/');
  }

  /** The prefixes 1 to i - 1, the ones the loop has visited when it reaches piece i. */
  function VisitedPrefixes(parts: seq<string>, i: nat): (r: set<string>)
    requires i <= |parts|
    ensures forall k :: 1 <= k < i ==> FolderPrefix(parts, k) in r
  {
    set k | 1 <= k < i :: FolderPrefix(parts, k)
  }

  /** The CreateFolder calls the loop makes up to piece i: one per visited prefix that was not already a folder. */
  function MissingCalls(folders: set<string>, parts: seq<string>, i: nat): (calls: seq<CreateCall>)
    requires i <= |parts|
    ensures |calls| < i || i == 0
    decreases i
  {
    if i <= 1 then []
    else
      var call := if FolderPrefix(parts, i - 1) in folders then [] else [CreateCall(FolderPrefix(parts, i - 2), parts[i - 1])];
      MissingCalls(folders, parts, i - 1) + call
  }

  /** One more piece visits one new prefix, and calls CreateFolder for it exactly when it is missing. */
  lemma EnsureStep(folders: set<string>, parts: seq<string>, i: nat)
    requires 1 <= i < |parts|
    ensures FolderPrefix(parts, i) !in VisitedPrefixes(parts, i)
    ensures VisitedPrefixes(parts, i + 1) == VisitedPrefixes(parts, i) + {FolderPrefix(parts, i)}
    ensures MissingCalls(folders, parts, i + 1) == MissingCalls(folders, parts, i)
      + if FolderPrefix(parts, i) in folders then [] else [CreateCall(FolderPrefix(parts, i - 1), parts[i])]
  {
    forall k | 1 <= k < i
      ensures FolderPrefix(parts, k) != FolderPrefix(parts, i)
    {
      FolderPrefixGrows(parts, k, i);
    }
  }

  /** Every CreateFolder call creates a visited prefix that was missing. */
  lemma {:induction false} MissingCallsAreMissing(folders: set<string>, parts: seq<string>, i: nat, c: CreateCall)
    requires i <= |parts| && c in MissingCalls(folders, parts, i)
    ensures c.parent + "/" + c.name in VisitedPrefixes(parts, i) && c.parent + "/" + c.name !in folders
    decreases i
  {
    var front := MissingCalls(folders, parts, i - 1);
    if c in front {
      MissingCallsAreMissing(folders, parts, i - 1, c);
      assert VisitedPrefixes(parts, i - 1) <= VisitedPrefixes(parts, i);
    } else {
      assert c == CreateCall(FolderPrefix(parts, i - 2), parts[i - 1]);
      assert c.parent + "/" + c.name == FolderPrefix(parts, i - 1);
    }
  }

  /** Every visited prefix that was missing gets its CreateFolder call. */
  lemma {:induction false} MissingGetCalls(folders: set<string>, parts: seq<string>, i: nat, k: nat)
    requires 1 <= k < i <= |parts| && FolderPrefix(parts, k) !in folders
    ensures CreateCall(FolderPrefix(parts, k - 1), parts[k]) in MissingCalls(folders, parts, i)
    decreases i
  {
    if k < i - 1 {
      MissingGetCalls(folders, parts, i - 1, k);
    }
  }

  /** A path with no '/' is a single piece: EnsureFolderExists visits no prefix of it. */
  lemma NoSlashNoPrefixes(path: string)
    requires '/' !in path
    ensures |Split(path, '/')| == 1
  {
    SplitCount(path, '/');
    CountAbsent(path, '/');
  }

  lemma {:induction false} CountAbsent(s: string, c: char)
    requires c !in s
    ensures Count(s, c) == 0
    decreases |s|
  {
    if s != [] {
      assert c !in s[1..] by {
        assert forall k :: 0 <= k < |s| - 1 ==> s[1..][k] == s[k + 1];
      }
      CountAbsent(s[1..], c);
    }
  }

  /** Splitting at a first separator gives the piece before it, then the pieces of the rest. */
  lemma {:induction false} SplitAtSeparator(x: string, y: string, sep: char)
    requires sep !in x
    ensures Split(x + [sep] + y, sep) == [x] + Split(y, sep)
    decreases |x|
  {
    var s := x + [sep] + y;
    if x == [] {
      assert s[1..] == y;
    } else {
      assert s[1..] == x[1..] + [sep] + y;
      assert sep !in x[1..] by {
        assert forall k :: 0 <= k < |x| - 1 ==> x[1..][k] == x[k + 1];
      }
      SplitAtSeparator(x[1..], y, sep);
      assert [x[0]] + x[1..] == x;
    }
  }

  /** A string without the separator is one piece. */
  lemma {:induction false} SplitWithoutSeparator(y: string, sep: char)
    requires sep !in y
    ensures Split(y, sep) == [y]
    decreases |y|
  {
    if y != [] {
      assert sep !in y[1..] by {
        assert forall k :: 0 <= k < |y| - 1 ==> y[1..][k] == y[k + 1];
      }
      SplitWithoutSeparator(y[1..], sep);
      assert [y[0]] + y[1..] == y;
    }
  }

  /**
   * ReviewOutputPath holds "//": the review folder splits into "Assets",
   * "_Project", an empty piece, and the rest, so EnsureFolderExists visits
   * "Assets/_Project/" on its way and asks for a folder with an empty name
   * under "Assets/_Project" whenever that prefix is not a valid folder.
   */
  lemma ReviewFolderPieces(videoFilePath: string)
    requires GetFileNameWithoutExtension(videoFilePath) != ""
    ensures var name := GetFileNameWithoutExtension(videoFilePath);
      var parts := Split(ReviewFolderOf(videoFilePath), '/');
      parts == ["Assets", "_Project", "", "ReviewOutput\\" + name]
      && FolderPrefix(parts, 1) == "Assets/_Project"
      && FolderPrefix(parts, 2) == "Assets/_Project/"
  {
    var name := GetFileNameWithoutExtension(videoFilePath);
    var fileName := GetFileName(videoFilePath);
    var last := "ReviewOutput\\" + name;
    assert '/' !in last by {
      forall k | 0 <= k < |name|
        ensures name[k] != '/'
      {
        assert name[k] == fileName[k];
        assert !IsDirectoryEnd(fileName[k]);
      }
      assert forall k :: 0 <= k < |last| ==> last[k] != '/';
    }
    OutputPathPieces(name);
    SplitFourPieces("Assets", "_Project", "", last);
    ProjectPrefixes();
  }

  lemma OutputPathPieces(name: string)
    ensures ReviewOutputPath + "\\" + name == "Assets" + "/" + ("_Project" + "/" + ("" + "/" + ("ReviewOutput\\" + name)))
  {
    assert ReviewOutputPath + "\\" == "Assets" + "/" + ("_Project" + "/" + ("" + "/" + "ReviewOutput\\"));
  }

  lemma ProjectPrefixes()
    ensures "Assets" + "/" + "_Project" == "Assets/_Project"
    ensures "Assets" + "/" + "_Project" + "/" + "" == "Assets/_Project/"
  {
  }

  /** Four separator-free pieces joined by '/' split back into those four pieces. */
  lemma SplitFourPieces(a: string, b: string, c: string, d: string)
    requires '/' !in a && '/' !in b && '/' !in c && '/' !in d
    ensures Split(a + "/" + (b + "/" + (c + "/" + d)), '/') == [a, b, c, d]
  {
    SplitWithoutSeparator(d, '/');
    SplitAtSeparator(c, d, '/');
    SplitAtSeparator(b, c + "/" + d, '/');
    SplitAtSeparator(a, b + "/" + (c + "/" + d), '/');
    assert [a] + ([b] + ([c] + [d])) == [a, b, c, d];
  }

  /** What the import command touches. */
  datatype EditorState = EditorState(
    /** The folders AssetDatabase.IsValidFolder accepts, and the CreateFolder calls made. */
    folders: set<string>, createCalls: seq<CreateCall>,
    /** The file system's directories and files. */
    directories: set<string>, files: map<string, seq<byte>>,
    /** The AssetDatabase.ImportAsset calls, and the Review assets created by path. */
    imported: seq<string>, assets: map<string, Review>,
    log: seq<string>, dialogs: seq<string>)

  /** EnsureFolderExists: a valid folder changes nothing; otherwise each visited prefix that is missing is created. */
  function EnsuredOf(s: EditorState, path: string): (r: EditorState)
    ensures r.folders >= s.folders
    ensures r.directories == s.directories && r.files == s.files && r.imported == s.imported
    ensures r.assets == s.assets && r.log == s.log && r.dialogs == s.dialogs
  {
    if path in s.folders then s
    else
      var parts := Split(path, '/');
      s.(folders := s.folders + VisitedPrefixes(parts, |parts|),
         createCalls := s.createCalls + MissingCalls(s.folders, parts, |parts|))
  }

  /** A path with a '/' is a valid folder once ensured, and ensuring it again changes nothing. */
  lemma EnsuredFolderExists(s: EditorState, path: string)
    requires '/' in path
    ensures path in EnsuredOf(s, path).folders
    ensures EnsuredOf(EnsuredOf(s, path), path) == EnsuredOf(s, path)
  {
    if path !in s.folders {
      var parts := Split(path, '/');
      LastFolderPrefixIsPath(path);
      SplitCount(path, '/');
      CountPresent(path, '/');
      assert FolderPrefix(parts, |parts| - 1) in VisitedPrefixes(parts, |parts|);
    }
  }

  /** A path without '/' that is not a folder stays missing: the loop has no prefix to visit. */
  lemma EnsuredNeedsSlash(s: EditorState, path: string)
    requires '/' !in path && path !in s.folders
    ensures EnsuredOf(s, path).folders == s.folders && EnsuredOf(s, path).createCalls == s.createCalls
  {
    NoSlashNoPrefixes(path);
    assert VisitedPrefixes(Split(path, '/'), 1) == {};
  }

  /** CopyIntoFolder: the file copied, overwriting, into the folder's directory (made when missing), and the asset imported. */
  function CopyOf(s: EditorState, sourcePath: string, destAssetFolder: string, dataPath: string): (r: EditorState)
    requires |dataPath| >= |"Assets"| && sourcePath in s.files
    ensures r.folders == s.folders && r.createCalls == s.createCalls
    ensures r.assets == s.assets && r.log == s.log && r.dialogs == s.dialogs
    ensures s.files.Keys <= r.files.Keys
  {
    s.(directories := s.directories + {DestinationRoot(destAssetFolder, dataPath)},
       files := s.files[CopyDestination(sourcePath, destAssetFolder, dataPath) := s.files[sourcePath]],
       imported := s.imported + [Combine(destAssetFolder, GetFileName(sourcePath))])
  }

  /** The copy holds the source's contents whether or not the destination existed; no other file changes. */
  lemma CopyOverwrites(s: EditorState, sourcePath: string, destAssetFolder: string, dataPath: string)
    requires |dataPath| >= |"Assets"| && sourcePath in s.files
    ensures var r := CopyOf(s, sourcePath, destAssetFolder, dataPath);
      var dest := CopyDestination(sourcePath, destAssetFolder, dataPath);
      dest in r.files && r.files[dest] == s.files[sourcePath]
      && r.files.Keys == s.files.Keys + {dest}
      && (forall f :: f in s.files && f != dest ==> r.files[f] == s.files[f])
      && DestinationRoot(destAssetFolder, dataPath) in r.directories
  {
  }

  /** The log line for a copied file. */
  function ImportedLine(kind: string, assetPath: string): string
  {
    "Imported " + kind + " \U{2192} " + assetPath
  }

  /**
   * ImportReview after its two file dialogs: a cancelled dialog ("") ends
   * the command; otherwise the review folder is ensured, the track and then
   * the video are copied into it, and the Review asset records both copies.
   */
  function ImportOf(s: EditorState, trackJsonPath: string, videoFilePath: string, dataPath: string): (r: EditorState)
    requires |dataPath| >= |"Assets"|
    requires trackJsonPath != "" && videoFilePath != "" ==> trackJsonPath in s.files && videoFilePath in s.files
  {
    if trackJsonPath == "" || videoFilePath == "" then s
    else
      var folder := ReviewFolderOf(videoFilePath);
      var s1 := EnsuredOf(s, folder);
      var s2 := CopyOf(s1, trackJsonPath, folder, dataPath);
      var s3 := CopyOf(s2, videoFilePath, folder, dataPath);
      var newTrack := AssetPathOf(trackJsonPath, folder);
      var newVideo := AssetPathOf(videoFilePath, folder);
      var s4 := s3.(log := s3.log + [ImportedLine("track", newTrack)]);
      var s5 := s4.(log := s4.log + [ImportedLine("video", newVideo)]);
      var s6 := s5.(assets := s5.assets[ReviewAssetPathOf(videoFilePath) := Review(newTrack, newVideo)]);
      s6.(dialogs := s6.dialogs + ["Imported track & video into \U{201C}" + folder + "\U{201D}"])
  }

  /** Cancelling either dialog leaves everything as it was. */
  lemma CancelledImportChangesNothing(s: EditorState, trackJsonPath: string, videoFilePath: string, dataPath: string)
    requires |dataPath| >= |"Assets"| && (trackJsonPath == "" || videoFilePath == "")
    ensures ImportOf(s, trackJsonPath, videoFilePath, dataPath) == s
  {
  }

  /**
   * A completed import leaves the review folder valid and a Review asset,
   * named after the folder, whose two paths use '/' only and end in the
   * copied files' own names.
   */
  lemma ImportCreatesReview(s: EditorState, trackJsonPath: string, videoFilePath: string, dataPath: string)
    requires |dataPath| >= |"Assets"| && trackJsonPath != "" && videoFilePath != ""
    requires trackJsonPath in s.files && videoFilePath in s.files
    ensures var r := ImportOf(s, trackJsonPath, videoFilePath, dataPath);
      var folder := ReviewFolderOf(videoFilePath);
      var asset := ReviewAssetPathOf(videoFilePath);
      folder in r.folders && asset in r.assets
      && r.assets[asset] == Review(AssetPathOf(trackJsonPath, folder), AssetPathOf(videoFilePath, folder))
      && '\\' !in r.assets[asset].tracksPath && '\\' !in r.assets[asset].videoPath
      && EndsWith(r.assets[asset].tracksPath, GetFileName(trackJsonPath))
      && EndsWith(r.assets[asset].videoPath, GetFileName(videoFilePath))
  {
    var folder := ReviewFolderOf(videoFilePath);
    assert folder[6] == '/';
    EnsuredFolderExists(s, folder);
    var s1 := EnsuredOf(s, folder);
    var s3 := CopyOf(CopyOf(s1, trackJsonPath, folder, dataPath), videoFilePath, folder, dataPath);
    assert folder in s3.folders;
    var review := Review(AssetPathOf(trackJsonPath, folder), AssetPathOf(videoFilePath, folder));
    var r := ImportOf(s, trackJsonPath, videoFilePath, dataPath);
    assert r.folders == s3.folders && r.assets == s3.assets[ReviewAssetPathOf(videoFilePath) := review];
    AssetPathKeepsFileName(trackJsonPath, folder);
    AssetPathKeepsFileName(videoFilePath, folder);
  }

  class Editor {
    var folders: set<string>
    var createCalls: seq<CreateCall>
    var directories: set<string>
    var files: map<string, seq<byte>>
    var imported: seq<string>
    var assets: map<string, Review>
    var log: seq<string>
    var dialogs: seq<string>

    function State(): EditorState
      reads this
    {
      EditorState(folders, createCalls, directories, files, imported, assets, log, dialogs)
    }

    constructor (folders: set<string>, directories: set<string>, files: map<string, seq<byte>>)
      ensures State() == EditorState(folders, [], directories, files, [], map[], [], [])
    {
      this.folders := folders;
      createCalls := [];
      this.directories := directories;
      this.files := files;
      imported := [];
      assets := map[];
      log := [];
      dialogs := [];
    }

    /** AssetDatabase.CreateFolder: the name under the parent becomes a valid folder. */
    method CreateFolder(parent: string, name: string)
      modifies this
      ensures State() == old(State()).(folders := old(folders) + {parent + "/" + name},
                                       createCalls := old(createCalls) + [CreateCall(parent, name)])
    {
      folders := folders + {parent + "/" + name};
      createCalls := createCalls + [CreateCall(parent, name)];
    }

    /** Debug.Log. */
    method DebugLog(line: string)
      modifies this
      ensures State() == old(State()).(log := old(log) + [line])
    {
      log := log + [line];
    }

    /** AssetDatabase.CreateAsset: the asset is stored under its path. */
    method CreateAsset(path: string, review: Review)
      modifies this
      ensures State() == old(State()).(assets := old(assets)[path := review])
    {
      assets := assets[path := review];
    }

    /** EditorUtility.DisplayDialog. */
    method DisplayDialog(message: string)
      modifies this
      ensures State() == old(State()).(dialogs := old(dialogs) + [message])
    {
      dialogs := dialogs + [message];
    }

    /** EnsureFolderExists: the '/'-prefixes after the first piece visited in order, the missing ones created. */
    method EnsureFolderExists(assetsPath: string)
      modifies this
      ensures State() == EnsuredOf(old(State()), assetsPath)
    {
      if assetsPath in folders {
        return;
      }
      ghost var s0 := State();
      var parts := Split(assetsPath, '/');
      var current := parts[0];
      var i := 1;
      while i < |parts|
        invariant 1 <= i <= |parts|
        invariant current == FolderPrefix(parts, i - 1)
        invariant folders == s0.folders + VisitedPrefixes(parts, i)
        invariant createCalls == s0.createCalls + MissingCalls(s0.folders, parts, i)
        invariant directories == s0.directories && files == s0.files && imported == s0.imported
        invariant assets == s0.assets && log == s0.log && dialogs == s0.dialogs
      {
        var next := current + "/" + parts[i];
        assert next == FolderPrefix(parts, i);
        EnsureStep(s0.folders, parts, i);
        if !(next in folders) {
          CreateFolder(current, parts[i]);
        }
        current := next;
        i := i + 1;
      }
    }

    /** CopyIntoFolder: returns the copy's asset path with '/' separators. */
    method CopyIntoFolder(sourcePath: string, destAssetFolder: string, dataPath: string) returns (assetPath: string)
      requires |dataPath| >= |"Assets"| && sourcePath in files
      modifies this
      ensures State() == CopyOf(old(State()), sourcePath, destAssetFolder, dataPath)
      ensures assetPath == AssetPathOf(sourcePath, destAssetFolder)
    {
      var fileName := GetFileName(sourcePath);
      var destinationRoot := DestinationRoot(destAssetFolder, dataPath);
      if destinationRoot !in directories {
        directories := directories + {destinationRoot};
      }
      assert directories == old(directories) + {destinationRoot};
      var destinationPath := CopyDestination(sourcePath, destAssetFolder, dataPath);
      files := files[destinationPath := files[sourcePath]];
      var path := Combine(destAssetFolder, fileName);
      imported := imported + [path];
      assetPath := ReplaceChar(path, '\\', '/');
    }

    /** ImportReview, given what the two file dialogs returned. */
    method ImportReview(trackJsonPath: string, videoFilePath: string, dataPath: string)
      requires |dataPath| >= |"Assets"|
      requires trackJsonPath != "" && videoFilePath != "" ==> trackJsonPath in files && videoFilePath in files
      modifies this
      ensures State() == ImportOf(old(State()), trackJsonPath, videoFilePath, dataPath)
    {
      if trackJsonPath == "" {
        return;
      }
      if videoFilePath == "" {
        return;
      }
      var assetReviewFolder := ReviewFolderOf(videoFilePath);
      EnsureFolderExists(assetReviewFolder);
      var newTrack := CopyIntoFolder(trackJsonPath, assetReviewFolder, dataPath);
      var newVideo := CopyIntoFolder(videoFilePath, assetReviewFolder, dataPath);
      DebugLog(ImportedLine("track", newTrack));
      DebugLog(ImportedLine("video", newVideo));
      CreateAsset(ReviewAssetPathOf(videoFilePath), Review(newTrack, newVideo));
      DisplayDialog("Imported track & video into \U{201C}" + assetReviewFolder + "\U{201D}");
    }
  }

  lemma {:induction false} CountPresent(s: string, c: char)
    requires c in s
    ensures Count(s, c) > 0
    decreases |s|
  {
    if s[0] != c {
      assert c in s[1..] by {
        var k :| 0 <= k < |s| && s[k] == c;
        assert s[1..][k - 1] == c;
      }
      CountPresent(s[1..], c);
    }
  }
}
