// `InjectionCode` of tools/forgeExtractor.py: copy a source file to a temporary
// file line by line, replacing everything between a start-flag line and the
// matching end-flag line with generated code, and move the copy over the
// source only when both flags were seen in order.

module Injection {
  import opened PyStrings

  /** `startDelete`: `None` before any flag, `True` while skipping the old
      generated block, `False` once the end flag has been passed. */
  datatype State = Before | Deleting | After

  /** The end flag: " END" after the first docstring quote, then after the
      first block-comment opener, then after the first `#`. */
  function EndFlag(flag: string): string {
    ReplaceFirst(ReplaceFirst(ReplaceFirst(flag, "\"\"\"", "\"\"\" END"), "/*", "/* END"), "#", "# END")
  }

  /** A one-character pattern occurs exactly when the character does. */
  lemma {:induction false} ContainsChar(s: string, ch: char)
    ensures Contains(s, [ch]) <==> ch in s
    decreases |s|
  {
    if s != [] {
      ContainsChar(s[1..], ch);
      assert s == [s[0]] + s[1..];
    }
  }

  /** A pattern that starts with a character absent from `s` does not occur. */
  lemma {:induction false} ContainsNeedsHead(s: string, pat: string)
    requires pat != [] && pat[0] !in s
    ensures !Contains(s, pat)
    decreases |s|
  {
    if s != [] {
      assert s[0] != pat[0];
      assert pat[0] !in s[1..] by {
        assert forall x :: x in s[1..] ==> x in s;
      }
      ContainsNeedsHead(s[1..], pat);
    }
  }

  /** A `#` flag gets " END" after its first character. */
  lemma EndFlagOfHashFlag(rest: string)
    requires '"' !in rest && '/' !in rest
    ensures EndFlag("#" + rest) == "# END" + rest
  {
    var flag := "#" + rest;
    ContainsNeedsHead(flag, "\"\"\"");
    ReplaceFirstCases(flag, "\"\"\"", "\"\"\" END");
    ContainsNeedsHead(flag, "/*");
    ReplaceFirstCases(flag, "/*", "/* END");
    assert "#" <= flag;
    ReplaceFirstCases(flag, "#", "# END");
    assert flag[1..] == rest;
  }

  /** A block-comment flag gets " END" after its opener. */
  lemma EndFlagOfBlockFlag(rest: string)
    requires '"' !in rest && '#' !in rest
    ensures EndFlag("/*" + rest) == "/* END" + rest
  {
    var flag := "/*" + rest;
    ContainsNeedsHead(flag, "\"\"\"");
    ReplaceFirstCases(flag, "\"\"\"", "\"\"\" END");
    assert "/*" <= flag;
    ReplaceFirstCases(flag, "/*", "/* END");
    assert flag[2..] == rest;
    var marked := "/* END" + rest;
    ContainsNeedsHead(marked, "#");
    ReplaceFirstCases(marked, "#", "# END");
  }

  /** What one source line does: the end-flag test, the copy unless the
      old block is being skipped, then the start-flag test, which writes
      the code. */
  function StepState(state: State, line: string, startFlag: string, endFlag: string): State {
    if Contains(line, startFlag) then Deleting
    else if Contains(line, endFlag) then After
    else state
  }

  function StepOutput(state: State, line: string, startFlag: string, endFlag: string, code: string): seq<string> {
    var copying := Contains(line, endFlag) || state != Deleting;
    (if copying then [line] else []) + (if Contains(line, startFlag) then [code + "\n"] else [])
  }

  /** State and text written after the lines, starting in `state`. */
  function RunFrom(state: State, lines: seq<string>, startFlag: string, endFlag: string, code: string):
    (State, seq<string>)
    decreases |lines|
  {
    if lines == [] then (state, [])
    else
      var n := |lines| - 1;
      var prev := RunFrom(state, lines[..n], startFlag, endFlag, code);
      (StepState(prev.0, lines[n], startFlag, endFlag),
       prev.1 + StepOutput(prev.0, lines[n], startFlag, endFlag, code))
  }

  /** The whole file, starting from `startDelete = None`. */
  function Run(lines: seq<string>, startFlag: string, endFlag: string, code: string): (State, seq<string>) {
    RunFrom(Before, lines, startFlag, endFlag, code)
  }

  /** Running over two stretches is running over the first, then the second. */
  lemma {:induction false} RunFromAppend(state: State, a: seq<string>, b: seq<string>,
                                         startFlag: string, endFlag: string, code: string)
    ensures RunFrom(state, a + b, startFlag, endFlag, code) ==
      (RunFrom(RunFrom(state, a, startFlag, endFlag, code).0, b, startFlag, endFlag, code).0,
       RunFrom(state, a, startFlag, endFlag, code).1 +
       RunFrom(RunFrom(state, a, startFlag, endFlag, code).0, b, startFlag, endFlag, code).1)
    decreases |b|
  {
    var x := RunFrom(state, a, startFlag, endFlag, code);
    if b == [] {
      assert a + b == a;
      assert x.1 + [] == x.1;
    } else {
      var n := |b| - 1;
      RunFromAppend(state, a, b[..n], startFlag, endFlag, code);
      assert (a + b)[..|a + b| - 1] == a + b[..n];
      assert (a + b)[|a + b| - 1] == b[n];
      var prev := RunFrom(state, a + b[..n], startFlag, endFlag, code);
      var y := RunFrom(x.0, b[..n], startFlag, endFlag, code);
      assert prev == (y.0, x.1 + y.1);
      var out := StepOutput(y.0, b[n], startFlag, endFlag, code);
      assert RunFrom(state, a + b, startFlag, endFlag, code) ==
        (StepState(y.0, b[n], startFlag, endFlag), (x.1 + y.1) + out);
      assert RunFrom(x.0, b, startFlag, endFlag, code) == (StepState(y.0, b[n], startFlag, endFlag), y.1 + out);
      assert (x.1 + y.1) + out == x.1 + (y.1 + out);
    }
  }

  /** Outside the old block, lines without a start flag are copied as they are. */
  lemma {:induction false} CopiesPlainLines(state: State, lines: seq<string>,
                                            startFlag: string, endFlag: string, code: string)
    requires state != Deleting
    requires forall i :: 0 <= i < |lines| ==> !Contains(lines[i], startFlag)
    ensures RunFrom(state, lines, startFlag, endFlag, code).1 == lines
    ensures RunFrom(state, lines, startFlag, endFlag, code).0 != Deleting
    ensures state == After ==> RunFrom(state, lines, startFlag, endFlag, code).0 == After
    decreases |lines|
  {
    if lines != [] {
      var n := |lines| - 1;
      CopiesPlainLines(state, lines[..n], startFlag, endFlag, code);
      assert lines[..n] + [lines[n]] == lines;
    }
  }

  /** Inside the old block, lines without either flag are dropped. */
  lemma {:induction false} DropsOldBlock(lines: seq<string>, startFlag: string, endFlag: string, code: string)
    requires forall i :: 0 <= i < |lines| ==> !Contains(lines[i], startFlag) && !Contains(lines[i], endFlag)
    ensures RunFrom(Deleting, lines, startFlag, endFlag, code) == (Deleting, [])
    decreases |lines|
  {
    if lines != [] {
      var n := |lines| - 1;
      DropsOldBlock(lines[..n], startFlag, endFlag, code);
      var none: seq<string> := [];
      assert StepOutput(Deleting, lines[n], startFlag, endFlag, code) == none + none;
      assert none + (none + none) == none;
    }
  }

  lemma RunOne(state: State, line: string, startFlag: string, endFlag: string, code: string)
    ensures RunFrom(state, [line], startFlag, endFlag, code) ==
      (StepState(state, line, startFlag, endFlag), StepOutput(state, line, startFlag, endFlag, code))
  {
    var none: seq<string> := [];
    assert [line][..0] == none;
    assert RunFrom(state, [line][..0], startFlag, endFlag, code) == (state, none);
    assert none + StepOutput(state, line, startFlag, endFlag, code) == StepOutput(state, line, startFlag, endFlag, code);
  }

  /** The splice: everything up to and including the start-flag line, then
      the code, then everything from the end-flag line on; the run ends
      with the end flag seen. */
  lemma Splices(pre: seq<string>, startLine: string, stale: seq<string>, endLine: string, post: seq<string>,
                startFlag: string, endFlag: string, code: string)
    requires forall i :: 0 <= i < |pre| ==> !Contains(pre[i], startFlag)
    requires Contains(startLine, startFlag)
    requires forall i :: 0 <= i < |stale| ==> !Contains(stale[i], startFlag) && !Contains(stale[i], endFlag)
    requires Contains(endLine, endFlag) && !Contains(endLine, startFlag)
    requires forall i :: 0 <= i < |post| ==> !Contains(post[i], startFlag)
    ensures Run(pre + [startLine] + stale + [endLine] + post, startFlag, endFlag, code) ==
      (After, pre + [startLine] + [code + "\n"] + [endLine] + post)
  {
    var a := pre + [startLine];
    var b := a + stale;
    var c := b + [endLine];
    var kept := pre + [startLine] + [code + "\n"];
    SpliceHead(pre, startLine, startFlag, endFlag, code);
    SpliceBlock(a, stale, kept, startFlag, endFlag, code);
    SpliceEnd(b, endLine, kept, startFlag, endFlag, code);
    SpliceTail(c, post, kept + [endLine], startFlag, endFlag, code);
  }

  lemma SpliceHead(pre: seq<string>, startLine: string, startFlag: string, endFlag: string, code: string)
    requires forall i :: 0 <= i < |pre| ==> !Contains(pre[i], startFlag)
    requires Contains(startLine, startFlag)
    ensures RunFrom(Before, pre + [startLine], startFlag, endFlag, code) ==
      (Deleting, pre + [startLine] + [code + "\n"])
  {
    var s1 := RunFrom(Before, pre, startFlag, endFlag, code);
    CopiesPlainLines(Before, pre, startFlag, endFlag, code);
    RunOne(s1.0, startLine, startFlag, endFlag, code);
    assert StepOutput(s1.0, startLine, startFlag, endFlag, code) == [startLine] + [code + "\n"];
    RunFromAppend(Before, pre, [startLine], startFlag, endFlag, code);
    assert pre + ([startLine] + [code + "\n"]) == pre + [startLine] + [code + "\n"];
  }

  lemma SpliceBlock(a: seq<string>, stale: seq<string>, out: seq<string>,
                    startFlag: string, endFlag: string, code: string)
    requires RunFrom(Before, a, startFlag, endFlag, code) == (Deleting, out)
    requires forall i :: 0 <= i < |stale| ==> !Contains(stale[i], startFlag) && !Contains(stale[i], endFlag)
    ensures RunFrom(Before, a + stale, startFlag, endFlag, code) == (Deleting, out)
  {
    DropsOldBlock(stale, startFlag, endFlag, code);
    RunFromAppend(Before, a, stale, startFlag, endFlag, code);
    assert out + [] == out;
  }

  lemma SpliceEnd(b: seq<string>, endLine: string, out: seq<string>,
                  startFlag: string, endFlag: string, code: string)
    requires RunFrom(Before, b, startFlag, endFlag, code) == (Deleting, out)
    requires Contains(endLine, endFlag) && !Contains(endLine, startFlag)
    ensures RunFrom(Before, b + [endLine], startFlag, endFlag, code) == (After, out + [endLine])
  {
    RunOne(Deleting, endLine, startFlag, endFlag, code);
    var none: seq<string> := [];
    assert StepOutput(Deleting, endLine, startFlag, endFlag, code) == [endLine] + none;
    assert [endLine] + none == [endLine];
    assert StepState(Deleting, endLine, startFlag, endFlag) == After;
    RunFromAppend(Before, b, [endLine], startFlag, endFlag, code);
  }

  lemma SpliceTail(c: seq<string>, post: seq<string>, out: seq<string>,
                   startFlag: string, endFlag: string, code: string)
    requires RunFrom(Before, c, startFlag, endFlag, code) == (After, out)
    requires forall i :: 0 <= i < |post| ==> !Contains(post[i], startFlag)
    ensures RunFrom(Before, c + post, startFlag, endFlag, code) == (After, out + post)
  {
    CopiesPlainLines(After, post, startFlag, endFlag, code);
    RunFromAppend(Before, c, post, startFlag, endFlag, code);
  }

  /** `startDelete is None` at the end, the missing-start-flag error,
      exactly when no line holds either flag. */
  lemma {:induction false} NoneMeansNoFlag(lines: seq<string>, startFlag: string, endFlag: string, code: string)
    ensures Run(lines, startFlag, endFlag, code).0 == Before <==>
      forall i :: 0 <= i < |lines| ==> !Contains(lines[i], startFlag) && !Contains(lines[i], endFlag)
    decreases |lines|
  {
    if lines != [] {
      var n := |lines| - 1;
      NoneMeansNoFlag(lines[..n], startFlag, endFlag, code);
      assert forall i :: 0 <= i < n ==> lines[..n][i] == lines[i];
    }
  }

  /** `startDelete` is still `True`, the missing-end-flag error, exactly when
      some start-flag line has no end-flag line after it. */
  lemma {:induction false} StillDeletingMeansNoEnd(lines: seq<string>, startFlag: string, endFlag: string, code: string)
    ensures Run(lines, startFlag, endFlag, code).0 == Deleting <==>
      exists i :: 0 <= i < |lines| && Contains(lines[i], startFlag) &&
        forall j :: i < j < |lines| ==> !Contains(lines[j], endFlag)
    decreases |lines|
  {
    if lines != [] {
      var n := |lines| - 1;
      var prefix := lines[..n];
      StillDeletingMeansNoEnd(prefix, startFlag, endFlag, code);
      assert forall i :: 0 <= i < n ==> prefix[i] == lines[i];
      if Run(lines, startFlag, endFlag, code).0 == Deleting {
        if Contains(lines[n], startFlag) {
          assert Contains(lines[n], startFlag);
        } else {
          var i :| 0 <= i < n && Contains(prefix[i], startFlag) &&
            forall j :: i < j < n ==> !Contains(prefix[j], endFlag);
          assert Contains(lines[i], startFlag) && forall j :: i < j < |lines| ==> !Contains(lines[j], endFlag);
        }
      } else {
        forall i | 0 <= i < |lines| && Contains(lines[i], startFlag)
          ensures exists j :: i < j < |lines| && Contains(lines[j], endFlag)
        {
          if i == n {
            assert false;
          } else if Contains(lines[n], endFlag) {
            assert i < n;
          } else {
            assert Contains(prefix[i], startFlag);
            var j :| i < j < n && Contains(prefix[j], endFlag);
            assert Contains(lines[j], endFlag);
          }
        }
      }
    }
  }

  /** An end flag without a start flag passes for success: every line is
      copied, nothing is inserted, and the file is moved back unchanged. */
  lemma EndFlagAloneCopies(lines: seq<string>, k: nat, startFlag: string, endFlag: string, code: string)
    requires k < |lines| && Contains(lines[k], endFlag)
    requires forall i :: 0 <= i < |lines| ==> !Contains(lines[i], startFlag)
    ensures Run(lines, startFlag, endFlag, code) == (After, lines)
  {
    CopiesPlainLines(Before, lines, startFlag, endFlag, code);
    NoneMeansNoFlag(lines, startFlag, endFlag, code);
  }

  /** The copy loop of `__insertCode__`: one line at a time, writing to the
      temporary file. */
  method Splice(lines: seq<string>, startFlag: string, endFlag: string, code: string)
    returns (startDelete: State, written: seq<string>)
    ensures (startDelete, written) == Run(lines, startFlag, endFlag, code)
  {
    startDelete := Before;
    written := [];
    for i := 0 to |lines|
      invariant (startDelete, written) == Run(lines[..i], startFlag, endFlag, code)
    {
      var line := lines[i];
      assert lines[..i + 1][..i] == lines[..i];
      ghost var before, out := startDelete, written;
      assert Run(lines[..i + 1], startFlag, endFlag, code) ==
        (StepState(before, line, startFlag, endFlag), out + StepOutput(before, line, startFlag, endFlag, code));
      if Contains(line, endFlag) {
        startDelete := After;
      }
      if startDelete != Deleting {
        written := written + [line];
      }
      if Contains(line, startFlag) {
        startDelete := Deleting;
        written := written + [code + "\n"];
      }
      assert written == out + StepOutput(before, line, startFlag, endFlag, code);
    }
    assert lines[..|lines|] == lines;
  }

  /** One injection: the source file, the temporary copy, and the flags. */
  class InjectionCode {
    var startFlag: string
    var endFlag: string
    var code: string
    var source: seq<string>
    var temp: seq<string>

    /** `__init__`: derive the end flag and run the insertion at once. */
    constructor (flag: string, file: seq<string>, code: string)
      ensures startFlag == flag && endFlag == EndFlag(flag) && this.code == code
      ensures temp == Run(file, flag, EndFlag(flag), code).1
      ensures source == (if Run(file, flag, EndFlag(flag), code).0 == After then temp else file)
    {
      startFlag := flag;
      endFlag := EndFlag(flag);
      this.code := code;
      source := file;
      temp := [];
      new;
      var ok := InsertCode();
    }

    /** `__insertCode__`: write the copy; replace the source only when the
        run ends after the end flag, and report the missing flag otherwise. */
    method InsertCode() returns (ok: bool)
      modifies this
      ensures startFlag == old(startFlag) && endFlag == old(endFlag) && code == old(code)
      ensures temp == Run(old(source), startFlag, endFlag, code).1
      ensures ok <==> Run(old(source), startFlag, endFlag, code).0 == After
      ensures source == (if ok then temp else old(source))
    {
      var startDelete, written := Splice(source, startFlag, endFlag, code);
      temp := written;
      if startDelete == Before {
        ok := false;
      } else if startDelete == Deleting {
        ok := false;
      } else {
        source := temp;
        ok := true;
      }
    }
  }
}
