/**
 Display names of functions: a qualified run-time symbol such as
 `main.main.func1` is cut at its `.` separators and the last segment kept.
 */
module Names {

  /** `strings.Split(s, string(sep))`: the maximal `sep`-free segments of `s`, in order. */
  function Split(s: string, sep: char): (parts: seq<string>)
    ensures |parts| >= 1
    ensures forall i :: 0 <= i < |parts| ==> sep !in parts[i]
  {
    if |s| == 0 then [""]
    else
      var rest := Split(s[1..], sep);
      if s[0] == sep then [""] + rest
      else [[s[0]] + rest[0]] + rest[1..]
  }

  /** `strings.Join(parts, string(sep))` */
  function Join(parts: seq<string>, sep: char): string
    requires |parts| >= 1
  {
    if |parts| == 1 then parts[0] else parts[0] + [sep] + Join(parts[1..], sep)
  }

  /** Splitting loses nothing: joining the segments again gives back the string. */
  lemma {:induction false} JoinSplit(s: string, sep: char)
    ensures Join(Split(s, sep), sep) == s
  {
    if |s| > 0 {
      var rest := Split(s[1..], sep);
      JoinSplit(s[1..], sep);
      if s[0] == sep {
        assert Split(s, sep) == [""] + rest;
        assert ([""] + rest)[1..] == rest;
      } else {
        var parts := [[s[0]] + rest[0]] + rest[1..];
        assert Split(s, sep) == parts;
        if |rest| > 1 {
          assert parts[1..] == rest[1..];
          assert Join(rest, sep) == rest[0] + [sep] + Join(rest[1..], sep);
        }
      }
    }
  }

  lemma {:induction false} JoinLongerThanLast(parts: seq<string>, sep: char)
    requires |parts| > 1
    ensures |Join(parts, sep)| > |parts[|parts| - 1]|
  {
    if |parts| > 2 {
      JoinLongerThanLast(parts[1..], sep);
    }
  }

  /**
   The last segment is the tail of `s` after the last `sep`: it is a suffix of
   `s`, and either it is all of `s` or the character before it is `sep`.
   */
  lemma {:induction false} LastSegmentIsTail(s: string, sep: char)
    ensures var parts := Split(s, sep);
            var p := parts[|parts| - 1];
            |p| <= |s| && s[|s| - |p|..] == p && (|p| == |s| || s[|s| - |p| - 1] == sep)
  {
    if |s| > 0 {
      var rest := Split(s[1..], sep);
      var q := rest[|rest| - 1];
      if s[0] != sep && |rest| == 1 {
        // a single segment is the whole of s[1..]
        assert Split(s, sep) == [[s[0]] + rest[0]];
        JoinSplit(s[1..], sep);
        assert [s[0]] + s[1..] == s;
      } else {
        // the last segment is the last segment of s[1..], a proper tail of s
        LastSegmentIsTail(s[1..], sep);
        assert s[|s| - |q|..] == s[1..][|s| - 1 - |q|..];
        if s[0] == sep {
          assert Split(s, sep) == [""] + rest;
        } else {
          assert Split(s, sep) == [[s[0]] + rest[0]] + rest[1..];
          JoinSplit(s[1..], sep);
          JoinLongerThanLast(rest, sep);
        }
      }
    }
  }

  /**
   `GetFunctionName` applied to the symbol name the run time reports for a
   function: the part after the last `.`, which contains no `.`.
   */
  function GetFunctionName(qualified: string): (r: string)
    ensures '.' !in r
    ensures |r| <= |qualified| && qualified[|qualified| - |r|..] == r
    ensures |r| == |qualified| || qualified[|qualified| - |r| - 1] == '.'
  {
    var parts := Split(qualified, '.');
    LastSegmentIsTail(qualified, '.');
    parts[|parts| - 1]
  }

  /** The three properties above single out one string: the tail after the last `.`. */
  lemma {:induction false} FunctionNameUnique(qualified: string, r: string)
    requires '.' !in r
    requires |r| <= |qualified| && qualified[|qualified| - |r|..] == r
    requires |r| == |qualified| || qualified[|qualified| - |r| - 1] == '.'
    ensures r == GetFunctionName(qualified)
  {
  }
}
