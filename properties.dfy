/** `Properties.get`: a setting from a system property, else from the first
    non-comment line of a file. The file system is a parameter. */
module Properties {

  import opened Wrappers
  import opened Strings

  /** What the file system answers for the path: missing, not readable, or
      present with its size and its lines (`None` where the call throws an
      `IOException`). */
  datatype FileState =
    | Absent
    | Unreadable
    | Present(size: Option<nat>, lines: Option<seq<string>>)

  predicate IsComment(line: string) {
    StartsWith(line, "#")
  }

  /** The position of the first line not starting with '#'. */
  function FirstNonComment(lines: seq<string>): (r: Option<nat>)
    ensures r.Some? ==> r.value < |lines| && !IsComment(lines[r.value])
    ensures r.Some? ==> forall j :: 0 <= j < r.value ==> IsComment(lines[j])
    ensures r.None? ==> forall j :: 0 <= j < |lines| ==> IsComment(lines[j])
  {
    if |lines| == 0 then None
    else if !IsComment(lines[0]) then Some(0)
    else match FirstNonComment(lines[1..])
      case None => None
      case Some(k) => Some(k + 1)
  }

  /** `get(name, path)`: the system property when set; otherwise, for a file
      that exists, is readable and not empty, the first line not starting with
      '#' (checked before trimming), trimmed; `null` in every other case. */
  function Get(systemProperty: Option<string>, file: FileState): (r: Option<string>)
    ensures systemProperty.Some? ==> r == systemProperty
    ensures systemProperty.None? ==>
              (r.Some? <==> file.Present? && file.size.Some? && file.size.value != 0
                            && file.lines.Some? && FirstNonComment(file.lines.value).Some?)
    ensures systemProperty.None? && r.Some? ==>
              var k := FirstNonComment(file.lines.value).value;
              && (forall j :: 0 <= j < k ==> IsComment(file.lines.value[j]))
              && !IsComment(file.lines.value[k])
              && r.value == Trim(file.lines.value[k])
  {
    if systemProperty.Some? then systemProperty
    else match file
      case Absent => None
      case Unreadable => None
      case Present(size, lines) =>
        if size.None? || size.value == 0 || lines.None? then None
        else match FirstNonComment(lines.value)
          case None => None
          case Some(k) => Some(Trim(lines.value[k]))
  }

  /** A value read from the file has no leading or trailing blanks. */
  lemma GetFromFileIsTrimmed(file: FileState)
    requires Get(None, file).Some?
    ensures var v := Get(None, file).value;
            v == "" || (!IsTrimmed(v[0]) && !IsTrimmed(v[|v| - 1]))
  { }

  /** A token after a comment line is read without its surrounding blanks. */
  lemma GetSkipsComment(size: nat)
    requires size > 0
    ensures Get(None, Present(Some(size), Some(["# token", "  abc\t"]))) == Some("abc")
  {
    var lines := ["# token", "  abc\t"];
    assert IsComment(lines[0]);
    assert !IsComment(lines[1]) by { assert lines[1][0] == ' '; }
    assert FirstNonComment(lines) == Some(1);
    var t := Trim(lines[1]);
    assert t == "abc" by {
      var l := lines[1];
      assert l[0] == ' ' && l[1] == ' ' && l[2] == 'a' && l[4] == 'c' && l[5] == '\t';
      var a, b :| 0 <= a <= b <= |l| && t == l[a..b]
                  && (forall i :: 0 <= i < a ==> IsTrimmed(l[i]))
                  && (forall i :: b <= i < |l| ==> IsTrimmed(l[i]));
      assert a <= 2 && b >= 5;
      assert t[0] == l[a] && t[|t| - 1] == l[b - 1];
    }
  }

  /** An indented comment is not a comment: the test precedes the trim. */
  lemma GetIndentedHash(size: nat)
    requires size > 0
    ensures Get(None, Present(Some(size), Some([" #x"]))) == Some("#x")
  {
    var t := Trim(" #x");
    assert !IsComment(" #x") by { assert " #x"[0] == ' '; }
    var a, b :| 0 <= a <= b <= |" #x"| && t == " #x"[a..b];
    assert t == "#x";
  }
}
