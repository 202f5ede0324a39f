/**
 * Models of the Go standard-library helpers the commands rely on:
 * strings.Contains, strings.TrimSuffix, strings.ToLower, path/filepath.Ext
 * (on a system whose only path separator is '/'), and the argument vector
 * handed to os/exec.Command. HasPrefix and HasSuffix only serve to define
 * Contains and TrimSuffix.
 */
module GoStd {

  /** An external process invocation, as exec.Command(name, args...) builds it. */
  datatype Command = Command(name: string, args: seq<string>)

  predicate HasPrefix(s: string, prefix: string) {
    |prefix| <= |s| && s[..|prefix|] == prefix
  }

  predicate HasSuffix(s: string, suffix: string) {
    |suffix| <= |s| && s[|s| - |suffix|..] == suffix
  }

  /** strings.Contains: does `substr` occur somewhere in `s`? */
  predicate Contains(s: string, substr: string)
    ensures Contains(s, substr) ==> |substr| <= |s|
    decreases |s|
  {
    HasPrefix(s, substr) || (|s| > 0 && Contains(s[1..], substr))
  }

  /** `substr` occurs in `s` starting at index `i`. */
  predicate OccursAt(s: string, substr: string, i: int) {
    0 <= i <= |s| - |substr| && s[i..i + |substr|] == substr
  }

  /** The scanning definition of Contains agrees with "some window of `s` equals `substr`". */
  lemma {:induction false} ContainsIff(s: string, substr: string)
    ensures Contains(s, substr) <==> exists i :: OccursAt(s, substr, i)
    decreases |s|
  {
    if |s| > 0 {
      ContainsIff(s[1..], substr);
      if HasPrefix(s, substr) {
        assert OccursAt(s, substr, 0);
      } else if Contains(s[1..], substr) {
        var j :| OccursAt(s[1..], substr, j);
        assert s[j + 1..j + 1 + |substr|] == s[1..][j..j + |substr|];
        assert OccursAt(s, substr, j + 1);
      }
      if exists i :: OccursAt(s, substr, i) {
        var i :| OccursAt(s, substr, i);
        if i > 0 {
          assert s[1..][i - 1..i - 1 + |substr|] == s[i..i + |substr|];
          assert OccursAt(s[1..], substr, i - 1);
        }
      }
    } else if HasPrefix(s, substr) {
      assert OccursAt(s, substr, 0);
    }
  }

  /** strings.TrimSuffix: drop `suffix` from the end of `s` when it is there. */
  function TrimSuffix(s: string, suffix: string): (r: string)
    ensures HasSuffix(s, suffix) ==> r + suffix == s
    ensures !HasSuffix(s, suffix) ==> r == s
  {
    if HasSuffix(s, suffix) then s[..|s| - |suffix|] else s
  }

  function LowerChar(c: char): char {
    if 'A' <= c <= 'Z' then (c as int - 'A' as int + 'a' as int) as char else c
  }

  /** strings.ToLower, restricted to the ASCII letters. */
  function ToLower(s: string): (r: string)
    ensures |r| == |s|
  {
    seq(|s|, i requires 0 <= i < |s| => LowerChar(s[i]))
  }

  /** ToLower moves each ASCII upper-case letter 32 code points down to its lower-case form and keeps every other character. */
  lemma ToLowerLetters(s: string, i: nat)
    requires i < |s|
    ensures !('A' <= s[i] <= 'Z') ==> ToLower(s)[i] == s[i]
    ensures 'A' <= s[i] <= 'Z' ==> 'a' <= ToLower(s)[i] <= 'z' && ToLower(s)[i] as int == s[i] as int + 32
  {
  }

  /**
   * filepath.Ext: the suffix of `path` that starts at the last '.' of its
   * final '/'-separated element, or "" when that element has no '.'.
   */
  function Ext(path: string): (ext: string)
    ensures ext != "" ==> ext[0] == '.' && |ext| <= |path|
  {
    ExtBefore(path, |path|)
  }

  /** Ext's backwards scan, having already passed over path[i..]. */
  function ExtBefore(path: string, i: nat): (ext: string)
    requires i <= |path|
    ensures ext != "" ==> ext[0] == '.' && |ext| <= |path|
  {
    if i == 0 || path[i - 1] == '/' then ""
    else if path[i - 1] == '.' then path[i - 1..]
    else ExtBefore(path, i - 1)
  }

  /** No '.' and no '/' in the characters of `s` from index `from` on. */
  predicate PlainFrom(s: string, from: nat) {
    forall k :: from <= k < |s| ==> s[k] != '.' && s[k] != '/'
  }

  lemma {:induction false} ExtBeforeShape(path: string, i: nat)
    requires i <= |path|
    requires forall k :: i <= k < |path| ==> path[k] != '.' && path[k] != '/'
    ensures var ext := ExtBefore(path, i);
      && (ext == "" ==> forall k :: 0 <= k < |path| && path[k] == '.' ==> '/' in path[k + 1..])
      && (ext != "" ==> ext[0] == '.' && HasSuffix(path, ext) && PlainFrom(ext, 1))
  {
    if i == 0 {
    } else if path[i - 1] == '/' {
      forall k | 0 <= k < |path| && path[k] == '.'
        ensures '/' in path[k + 1..]
      {
        assert k < i - 1;
        assert path[k + 1..][i - 1 - (k + 1)] == '/';
      }
    } else if path[i - 1] == '.' {
      var ext := path[i - 1..];
      forall k | 1 <= k < |ext| ensures ext[k] != '.' && ext[k] != '/' {
        assert ext[k] == path[i - 1 + k];
      }
    } else {
      ExtBeforeShape(path, i - 1);
    }
  }

  /**
   * What filepath.Ext promises: either the empty string, when every '.' of the
   * path lies before some '/', or a suffix of the path that starts with '.'
   * and holds no further '.' or '/'.
   */
  lemma ExtShape(path: string)
    ensures var ext := Ext(path);
      && (ext == "" ==> forall k :: 0 <= k < |path| && path[k] == '.' ==> '/' in path[k + 1..])
      && (ext != "" ==> ext[0] == '.' && HasSuffix(path, ext) && PlainFrom(ext, 1))
  {
    ExtBeforeShape(path, |path|);
  }

  lemma {:induction false} ExtBeforeAppended(s: string, name: string, i: nat)
    requires PlainFrom(name, 0)
    requires |s| + 1 <= i <= |s| + 1 + |name|
    ensures ExtBefore(s + "." + name, i) == "." + name
    decreases i
  {
    var p := s + "." + name;
    if i == |s| + 1 {
      assert p[i - 1] == '.';
      assert p[i - 1..] == "." + name;
    } else {
      assert p[i - 1] == name[i - 1 - |s| - 1];
      ExtBeforeAppended(s, name, i - 1);
    }
  }

  /** Appending "." and a plain name makes that name the extension. */
  lemma ExtOfAppended(s: string, name: string)
    requires PlainFrom(name, 0)
    ensures Ext(s + "." + name) == "." + name
  {
    ExtBeforeAppended(s, name, |s| + 1 + |name|);
  }
}
