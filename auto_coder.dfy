/** `auto_coder.py`: turning an AI reply into a file. The reply's first fenced
    Python block is extracted, written out, and (for a fix) checked by running the
    module's tests. The AI's replies and pytest's return code are oracle inputs;
    the written files are a map from file name to contents. */
module AutoCoder {
  import opened Wrappers
  import opened PyStr

  const StartTag := "```python"
  const EndTag := "```"

  /** `k` is the first index at or after `from` where `sub` occurs in `s`. */
  predicate FirstFrom(s: string, sub: string, from: nat, k: int) {
    from <= k && OccursAt(s, sub, k) && forall m :: from <= m < k ==> !OccursAt(s, sub, m)
  }

  /** The extraction step shared by `attempt_auto_fix` and `create_feature`:
      the text between the first "```python" and the next "```" that starts after
      the opening tag, stripped; None where the source returns False. */
  function ExtractCode(response: string): (r: Option<string>)
    ensures (forall k :: !OccursAt(response, StartTag, k)) ==> r.None?
    ensures r.Some? ==>
      var i := Find(response, StartTag, 0);
      var j := Find(response, EndTag, i + |StartTag|);
      && FirstFrom(response, StartTag, 0, i)
      && FirstFrom(response, EndTag, i + |StartTag|, j)
      && r.value == Strip(response[i + |StartTag|..j])
  {
    var startIdx := Find(response, StartTag, 0);
    var endIdx := Find(response, EndTag, if startIdx == -1 then |StartTag| - 1 else startIdx + |StartTag|);
    if startIdx == -1 || endIdx == -1 then None
    else Some(Strip(response[startIdx + |StartTag|..endIdx]))
  }

  /** Extraction succeeds exactly when an opening tag is followed (after the tag
      itself) by a closing fence, and then yields the stripped text between the
      first such pair. */
  lemma ExtractCodeExact(response: string, i: nat, j: nat)
    requires FirstFrom(response, StartTag, 0, i)
    requires FirstFrom(response, EndTag, i + |StartTag|, j)
    ensures ExtractCode(response) == Some(Strip(response[i + |StartTag|..j]))
  {
    var startIdx := Find(response, StartTag, 0);
    assert startIdx == i;
    var endIdx := Find(response, EndTag, i + |StartTag|);
    assert endIdx == j;
  }

  /** With an opening tag but no closing fence after it, extraction fails; in
      particular the backticks of the opening tag never close the block. */
  lemma ExtractCodeNeedsClosingFence(response: string, i: nat)
    requires FirstFrom(response, StartTag, 0, i)
    requires forall m :: i + |StartTag| <= m ==> !OccursAt(response, EndTag, m)
    ensures ExtractCode(response).None?
  {
    var startIdx := Find(response, StartTag, 0);
    assert startIdx == i;
  }

  /** The code an AI reply yields: None for a missing or empty reply (the early
      `return False`) and for a reply without a complete block. */
  function CodeOf(response: Option<string>): (r: Option<string>)
    ensures response.None? || response.value == [] ==> r.None?
    ensures r.Some? ==> r == ExtractCode(response.value)
  {
    if response.None? || response.value == [] then None else ExtractCode(response.value)
  }

  /** The file name `create_feature` writes the code to: "new_feature.py" when the
      first line starts with "class" or "def", otherwise the first line's last word
      with every ':' removed, plus ".py"; None stands for the IndexError of
      `split()[-1]` on a line with no word. */
  function ModuleFileName(code: string): (r: Option<string>)
    ensures StartsWith(FirstLine(code), "class") || StartsWith(FirstLine(code), "def") ==> r == Some("new_feature.py")
    ensures r.Some? ==> |r.value| >= 3 && r.value[|r.value| - 3..] == ".py"
    ensures !(StartsWith(FirstLine(code), "class") || StartsWith(FirstLine(code), "def")) ==>
      && (r.Some? <==> LastWord(FirstLine(code)).Some?)
      && (r.Some? ==> r.value == RemoveAll(LastWord(FirstLine(code)).value, ':') + ".py")
  {
    var firstLine := FirstLine(code);
    if StartsWith(firstLine, "class") || StartsWith(firstLine, "def") then Some("new_feature.py")
    else match LastWord(firstLine)
      case None => None
      case Some(word) =>
        var name := RemoveAll(word, ':') + ".py";
        assert name[|name| - 3..] == ".py";
        Some(name)
  }

  /** Extracted code is stripped, so a file name is found exactly when the code is
      not empty: empty code is what makes `split()[-1]` raise. */
  lemma ModuleFileNameOfStripped(text: string)
    ensures ModuleFileName(Strip(text)).None? <==> Strip(text) == []
  {
    var code := Strip(text);
    if code != [] {
      var firstLine := FirstLine(code);
      assert !IsSpace(code[0]);
      assert firstLine != [] && firstLine[0] == code[0];
      assert LastWord(firstLine).Some?;
    }
  }

  /** A fix succeeds when the reply holds a code block and the module's tests,
      `<module>_test.py`, then exit with status 0. */
  predicate FixSucceeds(moduleName: string, response: Option<string>, runTests: (string, string) -> int) {
    CodeOf(response).Some? && runTests(moduleName + "_test.py", CodeOf(response).value) == 0
  }

  /** The files after a fix attempt: `<module>.py` holds the extracted code
      whenever there was one, whatever the tests then say. */
  function FilesAfterFix(files: map<string, string>, moduleName: string, response: Option<string>): map<string, string> {
    if CodeOf(response).Some? then files[moduleName + ".py" := CodeOf(response).value] else files
  }

  class AutoCoder {
    /** The files written so far, by name. */
    var files: map<string, string>

    constructor ()
      ensures files == map[]
    {
      files := map[];
    }

    /** `attempt_auto_fix(module, error_text)`; `response` is the AI's reply to the
        fix prompt, and `runTests(target, code)` is pytest's return code for the
        test target once `code` is in place. */
    method AttemptAutoFix(moduleName: string, errorText: string, response: Option<string>,
                          runTests: (string, string) -> int) returns (ok: bool)
      modifies this`files
      ensures ok == FixSucceeds(moduleName, response, runTests)
      ensures files == FilesAfterFix(old(files), moduleName, response)
    {
      if response.None? || response.value == [] {
        return false;
      }
      var code := ExtractCode(response.value);
      if code.None? {
        return false;
      }
      files := files[moduleName + ".py" := code.value];
      var returnCode := runTests(moduleName + "_test.py", code.value);
      ok := returnCode == 0;
    }

    /** `create_feature(description)`; `response` is the AI's reply to the feature prompt. */
    method CreateFeature(description: string, response: Option<string>) returns (ok: bool)
      modifies this`files
      ensures var code := CodeOf(response);
        && (ok <==> code.Some? && ModuleFileName(code.value).Some?)
        && (ok ==> files == old(files)[ModuleFileName(code.value).value := code.value])
        && (!ok ==> files == old(files))
    {
      if response.None? || response.value == [] {
        return false;
      }
      var code := ExtractCode(response.value);
      if code.None? {
        return false;
      }
      var name := ModuleFileName(code.value);
      if name.None? {
        return false;
      }
      files := files[name.value := code.value];
      ok := true;
    }
  }
}
