/**
 * The parts of System.IO.Path that the core uses, with the Windows rules
 * (the project drives ffmpeg.exe and normalises '\\' to '/' itself):
 * separators '\\' and '/', the volume separator ':'.
 */
module DotNetPath {
  import opened Text
  import opened Base

  predicate IsSeparator(c: char)
  {
    c == '\\' || c == '/'
  }

  predicate IsDirectoryEnd(c: char)
  {
    IsSeparator(c) || c == ':'
  }

  /** Path.IsPathRooted: a leading separator or a drive letter followed by ':'. */
  predicate IsRooted(p: string)
  {
    (|p| >= 1 && IsSeparator(p[0])) || (|p| >= 2 && p[1] == ':')
  }

  /** Path.Combine(a, b). */
  function Combine(a: string, b: string): (r: string)
    ensures b == "" ==> r == a
    ensures b != "" && (a == "" || IsRooted(b)) ==> r == b
    ensures b != "" && a != "" && !IsRooted(b) && !IsDirectoryEnd(a[|a| - 1]) ==> r == a + "\\" + b
  {
    if b == "" then a
    else if a == "" then b
    else if IsRooted(b) then b
    else if IsDirectoryEnd(a[|a| - 1]) then a + b
    else a + "\\" + b
  }

  /** Joining a relative part onto a directory keeps the directory in front and the part at the end. */
  lemma CombineKeepsEnds(a: string, b: string)
    requires b != "" && a != "" && !IsRooted(b)
    ensures StartsWith(Combine(a, b), a) && EndsWith(Combine(a, b), b)
  {
    var r := Combine(a, b);
    if IsDirectoryEnd(a[|a| - 1]) {
      assert r == a + b;
    } else {
      assert r == a + "\\" + b;
    }
    assert r[..|a|] == a;
    assert r[|r| - |b|..] == b;
  }

  /** Index just after the last directory or volume separator, 0 when there is none. */
  function NameStart(p: string): (k: nat)
    ensures k <= |p|
    ensures k > 0 ==> IsDirectoryEnd(p[k - 1])
    ensures forall i :: k <= i < |p| ==> !IsDirectoryEnd(p[i])
    decreases |p|
  {
    if p == [] then 0
    else if IsDirectoryEnd(p[|p| - 1]) then |p|
    else NameStart(p[..|p| - 1])
  }

  /** Path.GetFileName: the part after the last separator. */
  function GetFileName(p: string): (r: string)
    ensures EndsWith(p, r)
    ensures forall i :: 0 <= i < |r| ==> !IsDirectoryEnd(r[i])
  {
    p[NameStart(p)..]
  }

  /** Index of the last '.' in s, if any. */
  function LastDot(s: string): (k: Option<nat>)
    ensures k.Some? ==> k.value < |s| && s[k.value] == '.'
    ensures k.Some? ==> forall i :: k.value < i < |s| ==> s[i] != '.'
    ensures k.None? ==> '.' !in s
    decreases |s|
  {
    if s == [] then None
    else if s[|s| - 1] == '.' then Some(|s| - 1)
    else
      var k := LastDot(s[..|s| - 1]);
      assert forall c :: c in s ==> c in s[..|s| - 1] || c == s[|s| - 1];
      k
  }

  /** Path.GetFileNameWithoutExtension: the file name up to its last '.'. */
  function GetFileNameWithoutExtension(p: string): (r: string)
    ensures var name := GetFileName(p);
      StartsWith(name, r) && (r == name <==> '.' !in name)
  {
    var name := GetFileName(p);
    match LastDot(name)
    case None => name
    case Some(k) => name[..k]
  }

  /** The file name of a path built by Combine from a directory and a plain name is that name. */
  lemma CombineFileName(dir: string, name: string)
    requires name != "" && forall i :: 0 <= i < |name| ==> !IsDirectoryEnd(name[i])
    ensures GetFileName(Combine(dir, name)) == name
  {
    var r := Combine(dir, name);
    assert !IsRooted(name);
    assert EndsWith(r, name);
    NameStartOfSuffix(r, name);
  }

  lemma NameStartOfSuffix(p: string, name: string)
    requires EndsWith(p, name) && name != ""
    requires forall i :: 0 <= i < |name| ==> !IsDirectoryEnd(name[i])
    requires |p| == |name| || IsDirectoryEnd(p[|p| - |name| - 1])
    ensures NameStart(p) == |p| - |name|
    decreases |name|
  {
    var q := p[..|p| - 1];
    assert p[|p| - 1] == name[|name| - 1];
    if |name| > 1 {
      var name' := name[..|name| - 1];
      assert q[|q| - |name'|..] == name';
      NameStartOfSuffix(q, name');
    } else if |p| > 1 {
      assert NameStart(q) == |q|;
    }
  }
}
