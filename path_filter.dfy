/** The filter that keeps editor swap files from triggering an import. */
module PathFilter {
  import opened Strings

  /**
   * isSwpPath: an entry name is a swap file when it starts with "." and
   * ends with ".swp".
   */
  predicate IsSwpPath(name: string)
  {
    StartsWith(name, ".") && EndsWith(name, ".swp")
  }

  /**
   * The filter spelled out character by character: at least four characters,
   * a leading '.', and ".swp" as the last four. The single '.' of the name
   * ".swp" serves both tests.
   */
  lemma SwpPathChars(name: string)
    ensures IsSwpPath(name) <==>
      4 <= |name| && name[0] == '.' &&
      name[|name| - 4] == '.' && name[|name| - 3] == 's' &&
      name[|name| - 2] == 'w' && name[|name| - 1] == 'p'
  {
    if IsSwpPath(name) {
      assert name[..1][0] == name[0];
      var tail := name[|name| - 4..];
      assert tail[0] == name[|name| - 4] && tail[1] == name[|name| - 3];
      assert tail[2] == name[|name| - 2] && tail[3] == name[|name| - 1];
    }
    if 4 <= |name| && name[0] == '.' && name[|name| - 4] == '.' && name[|name| - 3] == 's' &&
       name[|name| - 2] == 'w' && name[|name| - 1] == 'p' {
      assert name[..1] == ".";
      assert name[|name| - 4..] == ".swp";
    }
  }

  /** Sample names: hidden swap files are filtered, near misses are not. */
  lemma SwpExamples()
    ensures IsSwpPath(".foo.swp") && IsSwpPath(".a.txt.swp") && IsSwpPath(".swp")
    ensures !IsSwpPath("foo.swp") && !IsSwpPath(".foo.swx") && !IsSwpPath("")
    ensures !IsSwpPath(".") && !IsSwpPath(".sw") && !IsSwpPath("a.txt")
  {
    SwpPathChars(".foo.swp");
    SwpPathChars(".a.txt.swp");
    SwpPathChars(".swp");
    SwpPathChars("foo.swp");
    SwpPathChars(".foo.swx");
    SwpPathChars("a.txt");
  }

  /** Only hidden names are filtered: a name that does not start with '.' is never a swap file. */
  lemma VisibleNotSwp(name: string)
    requires name == [] || name[0] != '.'
    ensures !IsSwpPath(name)
  {
    if IsSwpPath(name) {
      StartsWithHead(name, ".");
    }
  }
}
