/** Option and Result wrappers and the handful of Python string operations the
    health-check probe relies on (`lower`, `startswith`, `in`, `replace`,
    `str(int)`, `os.path.basename`). */
module Common {

  datatype Option<+T> = None | Some(value: T)

  /** A value, or the name of the Python exception that escaped instead. */
  datatype Result<+T> = Ok(value: T) | Err(error: string)

  /** The one non-ASCII character whose lower case is an ASCII letter. */
  const KelvinSign: char := '\U{212A}'

  /** `str.lower()` on one character: the ASCII capitals, and the Kelvin sign,
      which lowers to 'k'; every other character is kept. */
  function LowerChar(c: char): (d: char)
    ensures 'A' <= c <= 'Z' ==> 'a' <= d <= 'z' && d as int == c as int + 32
    ensures c == KelvinSign ==> d == 'k'
    ensures !('A' <= c <= 'Z') && c != KelvinSign ==> d == c
  {
    if 'A' <= c <= 'Z' then (c as int - 'A' as int + 'a' as int) as char
    else if c == KelvinSign then 'k'
    else c
  }

  /** `str.lower()`, character by character. */
  function Lower(s: string): (r: string)
    ensures |r| == |s|
    ensures forall i :: 0 <= i < |s| ==> r[i] == LowerChar(s[i])
  {
    if s == [] then [] else [LowerChar(s[0])] + Lower(s[1..])
  }

  /** `s.startswith(prefix)`. */
  predicate StartsWith(s: string, prefix: string)
  {
    prefix <= s
  }

  /** `word in s`: `word` occurs in `s` as a contiguous substring. */
  predicate Contains(s: string, word: string)
    decreases |s|
  {
    StartsWith(s, word) || (s != [] && Contains(s[1..], word))
  }

  /** `s.replace(from, to)` for single characters: every occurrence is replaced. */
  function ReplaceChar(s: string, from: char, to: char): (r: string)
    ensures |r| == |s|
    ensures forall i :: 0 <= i < |s| ==> r[i] == (if s[i] == from then to else s[i])
  {
    if s == [] then [] else [if s[0] == from then to else s[0]] + ReplaceChar(s[1..], from, to)
  }

  function DigitChar(d: nat): (c: char)
    requires d < 10
    ensures '0' <= c <= '9'
  {
    ('0' as int + d) as char
  }

  /** `str(n)` for a non-negative integer: its decimal digits. */
  function NatToString(n: nat): (s: string)
    ensures |s| >= 1
    ensures forall i :: 0 <= i < |s| ==> '0' <= s[i] <= '9'
    decreases n
  {
    if n < 10 then [DigitChar(n)] else NatToString(n / 10) + [DigitChar(n % 10)]
  }

  /** The number a string of decimal digits denotes. */
  function DigitsValue(s: string): int
  {
    if s == [] then 0 else DigitsValue(s[..|s| - 1]) * 10 + (s[|s| - 1] as int - '0' as int)
  }

  /** `str(n)` denotes `n` and has no leading zero. */
  lemma {:induction false} NatToStringDenotes(n: nat)
    ensures DigitsValue(NatToString(n)) == n
    ensures NatToString(n)[0] == '0' ==> NatToString(n) == "0"
    decreases n
  {
    if n >= 10 {
      var s, head := NatToString(n), NatToString(n / 10);
      NatToStringDenotes(n / 10);
      assert s[..|s| - 1] == head;
      assert s[0] == head[0];
      if n / 10 < 10 {
        assert head == [DigitChar(n / 10)];
      }
    }
  }

  /** `os.path.basename` with the POSIX separator: what follows the last '/'. */
  function Basename(path: string): (b: string)
    ensures '/' !in b
    ensures |b| <= |path| && b == path[|path| - |b|..]
    ensures |b| == |path| || path[|path| - |b| - 1] == '/'
  {
    if path == [] || path[|path| - 1] == '/' then []
    else Basename(path[..|path| - 1]) + [path[|path| - 1]]
  }

  /** `dir` is empty or ends with the separator. */
  predicate EndsAtSeparator(dir: string)
  {
    dir == [] || dir[|dir| - 1] == '/'
  }

  /** `posixpath.join(a, b)`: an absolute `b` replaces `a`; otherwise `b` is
      appended, with a '/' in between unless `a` is empty or already ends with one. */
  function PathJoin(a: string, b: string): (p: string)
    ensures StartsWith(b, "/") ==> p == b
    ensures !StartsWith(b, "/") ==>
              |p| == |a| + |b| + (if EndsAtSeparator(a) then 0 else 1) &&
              StartsWith(p, a) && p[|p| - |b|..] == b &&
              EndsAtSeparator(p[..|p| - |b|])
  {
    if StartsWith(b, "/") then b
    else if EndsAtSeparator(a) then a + b
    else a + "/" + b
  }

  /** After a separator (or at the start), a separator-free `file` is the basename. */
  lemma {:induction false} BasenameAfterSeparator(dir: string, file: string)
    requires EndsAtSeparator(dir) && '/' !in file
    ensures Basename(dir + file) == file
    decreases |file|
  {
    var p := dir + file;
    if file == [] {
      assert p == dir;
    } else {
      var init, last := file[..|file| - 1], file[|file| - 1];
      assert file == init + [last];
      assert '/' !in init by {
        forall k | 0 <= k < |init| ensures init[k] != '/' {
          assert init[k] == file[k];
        }
      }
      assert p == (dir + init) + [last];
      BasenameAfterSeparator(dir, init);
    }
  }

  /** The basename of `posixpath.join(dir, file)` is `file` when `file` holds no separator. */
  lemma BasenameOfJoin(dir: string, file: string)
    requires '/' !in file
    ensures Basename(PathJoin(dir, file)) == file
  {
    if file != [] {
      assert file[0] != '/';
    }
    var p := PathJoin(dir, file);
    assert p == p[..|p| - |file|] + file;
    BasenameAfterSeparator(p[..|p| - |file|], file);
  }

  /** The text made of `lines`, each followed by a newline. */
  function JoinLines(lines: seq<string>): (text: string)
    ensures |lines| > 0 ==> |text| > 0 && text[|text| - 1] == '\n'
  {
    if lines == [] then "" else JoinLines(lines[..|lines| - 1]) + lines[|lines| - 1] + "\n"
  }

  /** The values `f` gives for the elements of `xs`, in order, Nones dropped:
      the list a loop builds by appending each element's value, if any. */
  function Collect<A, B>(xs: seq<A>, f: A -> Option<B>): (ys: seq<B>)
    ensures |ys| <= |xs|
  {
    if xs == [] then []
    else Collect(xs[..|xs| - 1], f) + (match f(xs[|xs| - 1]) case None => [] case Some(y) => [y])
  }

  /** Visiting one more element appends its value, if any. */
  lemma CollectStep<A, B>(xs: seq<A>, f: A -> Option<B>, i: nat)
    requires i < |xs|
    ensures Collect(xs[..i + 1], f) ==
              Collect(xs[..i], f) + (match f(xs[i]) case None => [] case Some(y) => [y])
  {
    assert xs[..i + 1][..i] == xs[..i];
  }

  /** The collected list is empty exactly when `f` gives None everywhere, and
      otherwise it starts with the value of the first element that has one. */
  lemma {:induction false} CollectHeadIsFirstValue<A, B>(xs: seq<A>, f: A -> Option<B>)
    ensures Collect(xs, f) == [] <==> forall i :: 0 <= i < |xs| ==> f(xs[i]).None?
    ensures Collect(xs, f) != [] ==>
              exists k :: 0 <= k < |xs| && f(xs[k]) == Some(Collect(xs, f)[0]) &&
                          forall j :: 0 <= j < k ==> f(xs[j]).None?
  {
    if xs != [] {
      var n := |xs| - 1;
      var init := xs[..n];
      CollectHeadIsFirstValue(init, f);
      assert forall i :: 0 <= i < n ==> init[i] == xs[i];
      if Collect(init, f) != [] {
        var k :| 0 <= k < n && f(init[k]) == Some(Collect(init, f)[0]) &&
                 forall j :: 0 <= j < k ==> f(init[j]).None?;
        assert f(xs[k]) == Some(Collect(xs, f)[0]);
      } else if f(xs[n]).Some? {
        assert Collect(xs, f) == [f(xs[n]).value];
      }
    }
  }
}
