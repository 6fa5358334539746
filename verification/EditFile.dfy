/** The edit_file tool on the text of one file (plugins/edit/edit.go, apply):
    blocks in order, with byte order mark and line endings put back. */
module EditFile {
  import opened Wrappers
  import opened EditPatch
  import opened EditApply

  const BOM := "\U{FEFF}"

  // ---------------------------------------------------------- line endings

  predicate CrlfAt(s: string, i: int) {
    0 <= i < |s| - 1 && s[i] == '\r' && s[i + 1] == '\n'
  }

  predicate HasCrlf(s: string) {
    exists i | 0 <= i < |s| :: CrlfAt(s, i)
  }

  predicate EveryNewlineIsCrlf(s: string) {
    forall i | 0 <= i < |s| && s[i] == '\n' :: CrlfAt(s, i - 1)
  }

  function ToLf(s: string): string
    decreases |s|
  {
    if s == "" then ""
    else if CrlfAt(s, 0) then "\n" + ToLf(s[2..])
    else [s[0]] + ToLf(s[1..])
  }

  function ToCrlf(s: string): string
    decreases |s|
  {
    if s == "" then ""
    else (if s[0] == '\n' then "\r\n" else [s[0]]) + ToCrlf(s[1..])
  }

  function Restored(s: string, crlf: bool): string {
    if crlf then ToCrlf(s) else s
  }

  lemma CrlfInTail(s: string, n: nat, i: int)
    requires n <= |s|
    ensures CrlfAt(s[n..], i) <==> i >= 0 && CrlfAt(s, i + n)
  {
  }

  lemma {:induction false} LfIsUnchanged(s: string)
    requires !HasCrlf(s)
    ensures ToLf(s) == s
    decreases |s|
  {
    if s != "" {
      forall i | 0 <= i < |s[1..]| ensures !CrlfAt(s[1..], i) {
        CrlfInTail(s, 1, i);
      }
      LfIsUnchanged(s[1..]);
      assert !CrlfAt(s, 0);
      assert s == [s[0]] + s[1..];
    }
  }

  lemma {:induction false} CrlfIsRestored(s: string)
    ensures ToCrlf(ToLf(s)) == s <==> EveryNewlineIsCrlf(s)
    decreases |s|
  {
    if s == "" {
    } else if CrlfAt(s, 0) {
      CrlfIsRestored(s[2..]);
      assert s == "\r\n" + s[2..];
      assert ToLf(s) == "\n" + ToLf(s[2..]) && ToLf(s)[1..] == ToLf(s[2..]);
      NewlinesInTail(s, 2);
    } else {
      CrlfIsRestored(s[1..]);
      assert s == [s[0]] + s[1..];
      assert ToLf(s)[1..] == ToLf(s[1..]);
      if s[0] == '\n' {
        assert ToCrlf(ToLf(s))[0] == '\r';
        assert !CrlfAt(s, 0 - 1);
      } else {
        NewlinesInTail(s, 1);
      }
    }
  }

  lemma NewlinesInTail(s: string, n: nat)
    requires (n == 1 && |s| >= 1 && !CrlfAt(s, 0) && s[0] != '\n') || (n == 2 && CrlfAt(s, 0))
    ensures EveryNewlineIsCrlf(s) <==> EveryNewlineIsCrlf(s[n..])
  {
    forall i | 0 <= i < |s[n..]| ensures s[n..][i] == s[i + n] && (CrlfAt(s[n..], i - 1) <==> i > 0 && CrlfAt(s, i + n - 1)) {
      CrlfInTail(s, n, i - 1);
    }
    if EveryNewlineIsCrlf(s) {
      forall i | 0 <= i < |s[n..]| && s[n..][i] == '\n' ensures CrlfAt(s[n..], i - 1) {
        assert CrlfAt(s, i + n - 1);
      }
    }
    if EveryNewlineIsCrlf(s[n..]) {
      forall i | 0 <= i < |s| && s[i] == '\n' ensures CrlfAt(s, i - 1) {
        if i >= n {
          assert s[n..][i - n] == '\n' && CrlfAt(s[n..], i - n - 1);
        }
      }
    }
  }

  /** The line endings are put back exactly when the file did not mix them:
      one CR LF makes every other newline of a changed file CR LF too. */
  lemma EndingsAreRestored(s: string)
    ensures Restored(ToLf(s), HasCrlf(s)) == s <==> !HasCrlf(s) || EveryNewlineIsCrlf(s)
  {
    if HasCrlf(s) {
      CrlfIsRestored(s);
    } else {
      LfIsUnchanged(s);
    }
  }

  lemma {:induction false} LfIsShorter(s: string)
    ensures |ToLf(s)| <= |s| && (HasCrlf(s) ==> |ToLf(s)| < |s|)
    decreases |s|
  {
    if s != "" && !CrlfAt(s, 0) {
      LfIsShorter(s[1..]);
      if HasCrlf(s) {
        var i :| 0 <= i < |s| && CrlfAt(s, i);
        CrlfInTail(s, 1, i - 1);
      }
    } else if s != "" {
      LfIsShorter(s[2..]);
    }
  }

  /** What is written with CR LF reads back, whatever it holds. */
  lemma {:induction false} CrlfReadsBack(s: string)
    ensures ToLf(ToCrlf(s)) == s
    decreases |s|
  {
    if s != "" {
      CrlfReadsBack(s[1..]);
      var rest := ToCrlf(s[1..]);
      assert s == [s[0]] + s[1..];
      if s[0] == '\n' {
        assert ("\r\n" + rest)[2..] == rest && CrlfAt("\r\n" + rest, 0);
      } else {
        FirstOfCrlf(s[0], s[1..]);
        assert ([s[0]] + rest)[1..] == rest;
      }
    }
  }

  /** A newline is always written as CR LF, so that none comes first. */
  lemma FirstOfCrlf(c: char, s: string)
    requires c != '\n'
    ensures !CrlfAt([c] + ToCrlf(s), 0)
  {
    if s != "" {
      assert ToCrlf(s)[0] == if s[0] == '\n' then '\r' else s[0];
    }
  }

  /** The written text reads back exactly when the file has CR LF endings or
      the text none: in a file with plain newlines, a CR LF of a replacement
      makes the file a CR LF file. */
  lemma WrittenReadsBack(s: string, crlf: bool)
    ensures ToLf(Restored(s, crlf)) == s <==> crlf || !HasCrlf(s)
  {
    if crlf {
      CrlfReadsBack(s);
    } else if HasCrlf(s) {
      LfIsShorter(s);
    } else {
      LfIsUnchanged(s);
    }
  }

  // ---------------------------------------------------------------- blocks

  /** The blocks in order, each on the result of the one before. */
  function ApplyBlocks(content: string, blocks: seq<Block>, k: nat): Result<string, FileError>
    decreases |blocks|
  {
    if blocks == [] then Ok(content)
    else match ApplyBlock(content, blocks[0])
      case Err(e) => Err(BadBlock(k, e))
      case Ok(next) => ApplyBlocks(next, blocks[1..], k + 1)
  }

  function WithoutBom(raw: string): string {
    if BOM <= raw then raw[|BOM|..] else raw
  }

  /** The file after the edit; a patch that changes nothing leaves every byte. */
  function Edited(raw: string, patch: string): Result<string, FileError> {
    match Parse(patch)
    case Err(e) => Err(BadPatch(e))
    case Ok(blocks) =>
      if blocks == [] then Err(NoBlocks)
      else
        var content := WithoutBom(raw);
        var original := ToLf(content);
        match ApplyBlocks(original, blocks, 0)
        case Err(e) => Err(e)
        case Ok(current) =>
          if current == original then Ok(raw)
          else Ok((if BOM <= raw then BOM else "") + Restored(current, HasCrlf(content)))
  }

  method Apply(raw: string, patch: string) returns (r: Result<string, FileError>)
    ensures r == Edited(raw, patch)
  {
    var parsed := ParsePatch(patch);
    if parsed.Err? {
      return Err(BadPatch(parsed.error));
    }
    var blocks := parsed.value;
    if blocks == [] {
      return Err(NoBlocks);
    }
    var bom, content := "", raw;
    if BOM <= raw {
      bom, content := BOM, raw[|BOM|..];
    }
    var crlf := HasCrlf(content);
    var original := ToLf(content);
    var current := original;
    for i := 0 to |blocks|
      invariant ApplyBlocks(original, blocks, 0) == ApplyBlocks(current, blocks[i..], i)
    {
      assert blocks[i..][0] == blocks[i] && blocks[i..][1..] == blocks[i + 1..];
      var next := ApplyOne(current, blocks[i]);
      if next.Err? {
        return Err(BadBlock(i, next.error));
      }
      current := next.value;
    }
    assert blocks[|blocks|..] == [];
    if current == original {
      return Ok(raw);
    }
    return Ok(bom + Restored(current, crlf));
  }

  lemma BomStripped(body: string)
    ensures WithoutBom(BOM + body) == body
  {
    assert (BOM + body)[..|BOM|] == BOM && (BOM + body)[|BOM|..] == body;
  }

  lemma BomIsKept(text: string, crlf: bool)
    ensures BOM <= Restored(text, crlf) <==> BOM <= text
    ensures BOM <= text ==> Restored(text, crlf) == BOM + Restored(text[|BOM|..], crlf)
  {
    if crlf && text != "" {
      assert ToCrlf(text)[0] == if text[0] == '\n' then '\r' else text[0];
    }
    assert BOM <= text ==> text == BOM + text[|BOM|..];
  }

  function Write(bom: bool, text: string, crlf: bool): string {
    (if bom then BOM else "") + Restored(text, crlf)
  }

  /** A mark that the text itself starts with is taken for the file's own. */
  ghost predicate Readable(bom: bool, text: string, crlf: bool) {
    (crlf || !HasCrlf(text)) && (bom || !(BOM <= text))
  }

  lemma WriteReadsBack(bom: bool, text: string, crlf: bool)
    ensures ToLf(WithoutBom(Write(bom, text, crlf))) == text <==> Readable(bom, text, crlf)
  {
    WrittenReadsBack(text, crlf);
    var written := Restored(text, crlf);
    if bom {
      BomStripped(written);
    } else {
      assert "" + written == written;
      BomIsKept(text, crlf);
      if BOM <= text {
        BomStripped(Restored(text[|BOM|..], crlf));
        BomIsLost(text[|BOM|..], crlf);
      }
    }
  }

  /** What is left after the mark never reads back as more than itself. */
  lemma BomIsLost(rest: string, crlf: bool)
    ensures |ToLf(Restored(rest, crlf))| <= |rest|
  {
    if crlf {
      CrlfReadsBack(rest);
    } else {
      LfIsShorter(rest);
    }
  }

  /** A patch in the documented format, with plain blocks, applies them in order
      to the text, read with plain newlines. The result reads back as the text
      they leave if and only if they leave it unchanged or it is readable under
      the endings and the mark of the file. */
  lemma PatchReadsBack(raw: string, blocks: seq<Block>, out: string)
    requires (forall b | b in blocks :: Plain(b)) && Edited(raw, Format(blocks)) == Ok(out)
    ensures var original := ToLf(WithoutBom(raw));
            && ApplyBlocks(original, blocks, 0).Ok?
            && var text := ApplyBlocks(original, blocks, 0).value;
               ToLf(WithoutBom(out)) == text <==> text == original || Readable(BOM <= raw, text, HasCrlf(WithoutBom(raw)))
  {
    ParseInvertsFormat(blocks);
    var content := WithoutBom(raw);
    var text := ApplyBlocks(ToLf(content), blocks, 0).value;
    if text != ToLf(content) {
      assert out == Write(BOM <= raw, text, HasCrlf(content));
      WriteReadsBack(BOM <= raw, text, HasCrlf(content));
    }
  }
}
