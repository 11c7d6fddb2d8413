/**
  Line splitting as a bufio.Scanner with its default split function does it
  (main.go:178-180): a token ends at each '\n', one trailing '\r' is dropped
  from it, and a final unterminated line is emitted as well.
*/
module Scanner {
  import Seqs

  /** Empty, or ending with a line terminator: text made of whole lines only. */
  predicate WholeLines(s: string) {
    s == [] || s[|s| - 1] == '\n'
  }

  /** A line the scanner hands back exactly as written. */
  predicate PlainLine(line: string) {
    '\n' !in line && (line == [] || line[|line| - 1] != '\r')
  }

  /** Index of the first '\n' in data, or |data| when there is none. */
  function FirstNewline(data: string): (i: nat)
    ensures i <= |data|
    ensures forall k :: 0 <= k < i ==> data[k] != '\n'
    ensures i < |data| ==> data[i] == '\n'
  {
    if data == [] then 0
    else if data[0] == '\n' then 0
    else 1 + FirstNewline(data[1..])
  }

  function DropCR(s: string): string {
    if s != [] && s[|s| - 1] == '\r' then s[..|s| - 1] else s
  }

  /** The lines a scanner yields from data, in order. */
  function SplitLines(data: string): (lines: seq<string>)
    ensures forall k :: 0 <= k < |lines| ==> '\n' !in lines[k]
    ensures |lines| <= |data|
    ensures lines == [] <==> data == []
    decreases |data|
  {
    if data == [] then []
    else
      var i := FirstNewline(data);
      if i < |data| then
        assert '\n' !in data[..i];
        [DropCR(data[..i])] + SplitLines(data[i + 1..])
      else
        assert '\n' !in data;
        [DropCR(data)]
  }

  /** Lines written to a file, each followed by its terminator. */
  function JoinLines(lines: seq<string>): (data: string)
    ensures WholeLines(data)
  {
    if lines == [] then [] else lines[0] + "\n" + JoinLines(lines[1..])
  }

  lemma NewlineAt(data: string, i: nat)
    requires i < |data| && data[i] == '\n'
    requires forall k :: 0 <= k < i ==> data[k] != '\n'
    ensures FirstNewline(data) == i
  {
  }

  /** Scanning text written as whole plain lines gives those lines back. */
  lemma {:induction false} SplitJoin(lines: seq<string>)
    requires forall k :: 0 <= k < |lines| ==> PlainLine(lines[k])
    ensures SplitLines(JoinLines(lines)) == lines
  {
    if lines != [] {
      var data := JoinLines(lines);
      var first := lines[0];
      var more := JoinLines(lines[1..]);
      assert PlainLine(first);
      assert data == first + ['\n'] + more;
      Seqs.AroundParts(first, '\n', more);
      forall k | 0 <= k < |first| ensures data[k] != '\n' {
        assert data[k] == first[k];
      }
      NewlineAt(data, |first|);
      assert DropCR(first) == first;
      assert SplitLines(data) == [first] + SplitLines(more);
      SplitJoin(lines[1..]);
      Seqs.ConsParts(lines);
    }
  }

  /** Joining the scanned lines of whole-line text without carriage returns restores the text. */
  lemma {:induction false} JoinSplit(data: string)
    requires WholeLines(data) && '\r' !in data
    ensures JoinLines(SplitLines(data)) == data
    decreases |data|
  {
    if data != [] {
      var i := FirstNewline(data);
      var head, rest := data[..i], data[i + 1..];
      assert data == head + "\n" + rest;
      assert '\r' !in head && '\r' !in rest;
      assert WholeLines(rest) by {
        if rest != [] { assert rest[|rest| - 1] == data[|data| - 1]; }
      }
      assert DropCR(head) == head;
      assert SplitLines(data) == [head] + SplitLines(rest);
      JoinSplit(rest);
    }
  }

  /** Scanning whole-line text followed by more text is scanning each part:
      text already ending in a terminator never merges with what is appended. */
  lemma {:induction false} SplitAppend(a: string, b: string)
    requires WholeLines(a)
    ensures SplitLines(a + b) == SplitLines(a) + SplitLines(b)
    decreases |a|
  {
    if a == [] {
      assert a + b == b;
    } else {
      var i := FirstNewline(a);
      assert i < |a|;
      var ab := a + b;
      forall k | 0 <= k < i ensures ab[k] != '\n' {
        assert ab[k] == a[k];
      }
      NewlineAt(ab, i);
      assert ab[..i] == a[..i];
      var rest := a[i + 1..];
      assert WholeLines(rest) by {
        if rest != [] { assert rest[|rest| - 1] == a[|a| - 1]; }
      }
      assert ab[i + 1..] == rest + b;
      var line := DropCR(a[..i]);
      assert SplitLines(a) == [line] + SplitLines(rest);
      assert SplitLines(ab) == [line] + SplitLines(rest + b);
      SplitAppend(rest, b);
      Seqs.AppendAssoc([line], SplitLines(rest), SplitLines(b));
    }
  }

  /** A last line without terminator is still emitted, whole. */
  lemma UnterminatedLineEmitted(data: string)
    requires data != [] && '\n' !in data
    ensures SplitLines(data) == [DropCR(data)]
  {
    assert FirstNewline(data) == |data|;
  }
}
