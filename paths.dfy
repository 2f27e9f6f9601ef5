/**
 * The two `pathlib` properties the core reads from a path string, for POSIX
 * paths: `Path(p).name` and `Path(p).stem`.
 */
module Paths {
  import opened Wrappers
  import opened Text

  /** The components pathlib keeps: separators split, empty and "." components dropped. */
  function Components(pieces: seq<string>): (r: seq<string>)
    ensures forall i :: 0 <= i < |r| ==> r[i] in pieces && r[i] != "" && r[i] != "."
  {
    if pieces == [] then []
    else
      var rest := Components(pieces[1..]);
      if pieces[0] == "" || pieces[0] == "." then rest else [pieces[0]] + rest
  }

  lemma {:induction false} ComponentsAppend(a: seq<string>, b: seq<string>)
    ensures Components(a + b) == Components(a) + Components(b)
  {
    if a != [] {
      assert (a + b)[1..] == a[1..] + b;
      ComponentsAppend(a[1..], b);
    } else {
      assert a + b == b;
    }
  }

  /** The last of `parts`, or "" when there is none. */
  function LastOr(parts: seq<string>): string
  {
    if parts == [] then "" else parts[|parts| - 1]
  }

  /**
   * `Path(p).name`, read from the end of the string: the text after the last
   * separator, unless that is empty or ".", in which case the name of what
   * comes before the separator.
   */
  function Name(p: string): string
    decreases |p|
  {
    match LastIndexOf(p, '/')
    case None => if p == "." then "" else p
    case Some(i) =>
      var last := p[i + 1..];
      if last == "" || last == "." then Name(p[..i]) else last
  }

  /** The last separator is the only index the contract of `LastIndexOf` allows. */
  lemma LastIndexOfIsLast(s: string, c: char, i: nat)
    requires i < |s| && s[i] == c && c !in s[i + 1..]
    ensures LastIndexOf(s, c) == Some(i)
  {
  }

  /** A string without separators splits into itself. */
  lemma SplitPlain(s: string, sep: char)
    requires sep !in s
    ensures Split(s, sep) == [s]
  {
  }

  /** `Name` is the last of the components pathlib keeps, which is how pathlib itself defines it. */
  lemma {:induction false} NameIsLastComponent(p: string)
    ensures Name(p) == LastOr(Components(Split(p, '/')))
    decreases |p|
  {
    match LastIndexOf(p, '/')
    case None =>
      SplitPlain(p, '/');
    case Some(i) =>
      var dir, last := p[..i], p[i + 1..];
      assert p == dir + "/" + last;
      JoinedSplit(dir, last);
      ComponentsAppend(Split(dir, '/'), [last]);
      assert [last][1..] == [];
      assert Components([last]) == if last == "" || last == "." then [] else [last];
      NameIsLastComponent(dir);
  }

  /** A name is a single component: it holds no separator and is never ".". */
  lemma NameIsComponent(p: string)
    ensures '/' !in Name(p) && Name(p) != "."
  {
    NameIsLastComponent(p);
    var parts := Components(Split(p, '/'));
    if parts != [] {
      assert parts[|parts| - 1] in Split(p, '/');
    }
  }

  /** A file name joined below any directory is that path's name. */
  lemma NameBelowDirectory(dir: string, file: string)
    requires file != "" && file != "." && '/' !in file
    ensures Name(dir + "/" + file) == file
  {
    var p := dir + "/" + file;
    assert p[|dir| + 1..] == file;
    LastIndexOfIsLast(p, '/', |dir|);
  }

  lemma {:induction false} JoinedSplit(dir: string, file: string)
    requires '/' !in file
    ensures Split(dir + "/" + file, '/') == Split(dir, '/') + [file]
    decreases |dir|
  {
    match IndexOf(dir, '/')
    case None =>
      SplitAfterPlainPiece(dir, '/', file);
      assert Split(file, '/') == [file];
    case Some(i) =>
      var s := dir + "/" + file;
      assert s[..i] == dir[..i];
      IndexOfIsFirst(s, '/', i);
      assert s[i + 1..] == dir[i + 1..] + "/" + file;
      JoinedSplit(dir[i + 1..], file);
  }

  /** `Path(name).stem`: the name without its last suffix, unless that dot is first or last. */
  function Stem(name: string): (r: string)
    ensures |r| <= |name| && r == name[..|r|]
    ensures r != name ==> 0 < |r| < |name| - 1 && name[|r|] == '.' && '.' !in name[|r| + 1..]
    ensures r == name ==> forall i :: 0 < i < |name| - 1 && name[i] == '.' ==> '.' in name[i + 1..]
  {
    match LastIndexOf(name, '.')
    case Some(k) =>
      if 0 < k < |name| - 1 then name[..k]
      else
        assert forall i :: 0 < i < |name| - 1 && name[i] == '.' ==> '.' in name[i + 1..] by {
          forall i | 0 < i < |name| - 1 && name[i] == '.' ensures '.' in name[i + 1..] {
            if k != 0 {
              assert name[i + 1..][k - i - 1] == name[k];
            }
          }
        }
        name
    case None => name
  }
}
