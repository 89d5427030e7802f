/**
 * pydeck/utils.py: `get_path(name)` turns a file name into the name of
 * its directory, accepting both `/` and `\` as separators:
 * `name.replace("\\", "/").rsplit("/", 1)[0]`.
 */
module Utils {
  import opened PyStr

  /** `name.replace("\\", "/")` */
  function Normalize(name: string): string
  {
    Replace(name, "\\", "/")
  }

  /** The position of the last occurrence of `c` in `s`, or -1. */
  function LastIndexOf(s: string, c: char): (r: int)
    ensures -1 <= r < |s|
    ensures r >= 0 ==> s[r] == c && c !in s[r + 1..]
    ensures r == -1 <==> c !in s
    decreases |s|
  {
    if s == [] then -1
    else if s[|s| - 1] == c then |s| - 1
    else
      assert s == s[..|s| - 1] + [s[|s| - 1]];
      LastIndexOf(s[..|s| - 1], c)
  }

  /** `s.rsplit(sep, 1)[0]`: everything before the last `sep`, or all of `s` when it has none. */
  function BeforeLast(s: string, sep: char): string
  {
    var i := LastIndexOf(s, sep);
    if i < 0 then s else s[..i]
  }

  /**
   * `get_path(name)`. The result is a prefix of the normalised name and
   * holds no backslash; when the normalised name has a `/` the result is
   * exactly the part before the last one, and otherwise it is the whole
   * normalised name.
   */
  function GetPath(name: string): (r: string)
    ensures '\\' !in r
    ensures r <= Normalize(name) && |r| <= |name|
    ensures '/' in Normalize(name) ==>
      |r| < |Normalize(name)| && Normalize(name)[|r|] == '/' && '/' !in Normalize(name)[|r| + 1..]
    ensures '/' !in Normalize(name) ==> r == Normalize(name)
  {
    ReplaceChar(name, '\\', '/');
    BeforeLast(Normalize(name), '/')
  }

  /** A plain file name, with neither kind of separator, is its own `get_path`. */
  lemma GetPathPlainName(name: string)
    requires '/' !in name && '\\' !in name
    ensures GetPath(name) == name
  {
    ReplaceChar(name, '\\', '/');
    assert Normalize(name) == name;
  }

  /** The directory of `dir + "/" + file` is `dir`, once separators are normalised. */
  lemma GetPathOfJoin(dir: string, file: string)
    requires '/' !in file && '\\' !in file
    ensures GetPath(dir + "/" + file) == Normalize(dir)
  {
    var s := dir + "/" + file;
    ReplaceChar(s, '\\', '/');
    ReplaceChar(dir, '\\', '/');
    var ns := Normalize(s);
    assert ns == Normalize(dir) + "/" + file;
    assert LastIndexOf(ns, '/') == |dir| by {
      assert ns[|dir|] == '/';
      assert ns[|dir| + 1..] == file;
    }
  }
}
