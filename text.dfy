/** JavaScript's `String.prototype.split` on a one-character separator and
    `Array.prototype.join`. A Dafny `char` is a Unicode scalar value, where
    JavaScript strings hold UTF-16 code units; the separators used here are
    single ASCII characters, for which the two agree. */
module Text {

  /** `s.split(sep)`: the pieces between separators; always at least one
      piece, and the empty string splits into one empty piece. */
  function Split(s: string, sep: char): (r: seq<string>)
    ensures |r| >= 1
    ensures forall i :: 0 <= i < |r| ==> sep !in r[i]
  {
    if s == [] then [[]]
    else if s[0] == sep then [[]] + Split(s[1..], sep)
    else
      var rest := Split(s[1..], sep);
      [[s[0]] + rest[0]] + rest[1..]
  }

  /** `parts.join(sep)`: the first piece, then each further piece after a
      separator; `[]` for no pieces. */
  function Join(parts: seq<string>, sep: string): (r: string)
    ensures parts == [] ==> r == []
    ensures |parts| == 1 ==> r == parts[0]
    ensures |parts| > 1 ==> parts[0] + sep <= r
  {
    if parts == [] then []
    else if |parts| == 1 then parts[0]
    else parts[0] + sep + Join(parts[1..], sep)
  }

  /** Joining the pieces of a split with the same separator gives back the string. */
  lemma {:induction false} JoinSplit(s: string, sep: char)
    ensures Join(Split(s, sep), [sep]) == s
  {
    if s != [] {
      var rest := Split(s[1..], sep);
      JoinSplit(s[1..], sep);
      if s[0] == sep {
        assert Split(s, sep) == [[]] + rest;
        assert ([[]] + rest)[1..] == rest;
      } else {
        var parts := Split(s, sep);
        assert parts[1..] == rest[1..];
        if |rest| == 1 {
          assert Join(rest, [sep]) == rest[0];
        } else {
          assert Join(rest, [sep]) == rest[0] + [sep] + Join(rest[1..], [sep]);
        }
      }
    }
  }

  /** Splitting a join whose pieces do not contain the separator gives back the pieces. */
  lemma {:induction false} SplitJoin(parts: seq<string>, sep: char)
    requires |parts| >= 1
    requires forall i :: 0 <= i < |parts| ==> sep !in parts[i]
    ensures Split(Join(parts, [sep]), sep) == parts
    decreases |parts|, |parts[0]|
  {
    if parts[0] == [] {
      if |parts| > 1 {
        SplitJoin(parts[1..], sep);
        assert Join(parts, [sep]) == [sep] + Join(parts[1..], [sep]);
      }
    } else {
      var head := parts[0];
      var shorter := [head[1..]] + parts[1..];
      assert shorter[1..] == parts[1..];
      assert forall i :: 1 <= i < |shorter| ==> shorter[i] == parts[i];
      SplitJoin(shorter, sep);
      if |parts| == 1 {
        assert Join(parts, [sep]) == head;
      } else {
        assert Join(parts, [sep]) == [head[0]] + Join(shorter, [sep]);
      }
      assert head == [head[0]] + head[1..];
      assert parts == [[head[0]] + shorter[0]] + shorter[1..];
    }
  }

  /** Joining a prefix of the pieces gives a prefix of the joined string. */
  lemma {:induction false} JoinPrefix(parts: seq<string>, sep: string, m: nat)
    requires m <= |parts|
    ensures Join(parts[..m], sep) <= Join(parts, sep)
    decreases m
  {
    if m > 0 && |parts| > 1 {
      if m == 1 {
        assert Join(parts[..1], sep) == parts[0];
      } else {
        assert parts[..m][1..] == parts[1..][..m - 1];
        JoinPrefix(parts[1..], sep, m - 1);
      }
    } else if m > 0 {
      assert parts[..m] == parts;
    }
  }

  /** `s.replaceAll(from, to)` for single characters. */
  function ReplaceChar(s: string, from: char, to: char): (r: string)
    ensures |r| == |s|
    ensures forall i :: 0 <= i < |s| ==> r[i] == if s[i] == from then to else s[i]
  {
    seq(|s|, i requires 0 <= i < |s| => if s[i] == from then to else s[i])
  }
}
