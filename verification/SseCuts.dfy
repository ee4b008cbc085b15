/** An event stream whose connection breaks, or is stopped, part-way: exactly when
    the frames delivered by then are the first frames of the stream. */
module SseCuts {
  import opened Prelude
  import opened Sse

  /** Stopping the reader after any number of lines delivers a prefix. */
  lemma {:induction false} StoppedEarly(r: Reader, lines: seq<string>, turns: nat)
    ensures Frames(r, Take(lines, turns)) <= Frames(r, lines)
  {
    if turns <= |lines| {
      assert lines == lines[..turns] + lines[turns..];
      FedAppend(r, lines[..turns], lines[turns..]);
    }
  }

  // ------------------------------------------------------------ cutting text

  /** A CR starts this line only if nothing but CRs and the LF follow. */
  predicate Benign(line: string) {
    line != "" && line[0] == '\r' ==> TrimEol(line) == ""
  }

  lemma {:induction false} CutLine(text: string, k: nat)
    requires 0 < k <= |text|
    ensures LineLength(text) <= k ==> LineLength(text[..k]) == LineLength(text)
    ensures LineLength(text) > k ==> LineLength(text[..k]) == k && '\n' !in text[..k]
  {
    if text[0] != '\n' && |text| > 1 {
      if k > 1 {
        assert text[..k][1..] == text[1..][..k - 1];
        CutLine(text[1..], k - 1);
        assert text[..k] == [text[0]] + text[1..][..k - 1];
      }
    }
  }

  lemma {:induction false} CutInLine(text: string, k: nat)
    requires 0 < k < |text| && k < LineLength(text)
    ensures Lines(text[..k]) == [text[..k]] && '\n' !in text[..k]
  {
    CutLine(text, k);
    assert text[..k][k..] == "" && text[..k][..k] == text[..k];
    assert Lines(text[..k]) == [text[..k]] + Lines("");
  }

  lemma {:induction false} CutAfterLine(text: string, k: nat)
    requires text != "" && LineLength(text) <= k <= |text|
    ensures var n := LineLength(text); Lines(text[..k]) == [text[..n]] + Lines(text[n..][..k - n])
  {
    var n := LineLength(text);
    CutLine(text, k);
    assert text[..k][..n] == text[..n] && text[..k][n..] == text[n..][..k - n];
  }

  /** The frames a reader in state `r` has delivered after `k` characters of `text`. */
  function Delivered(r: Reader, text: string, k: nat): seq<Frame>
    requires k <= |text|
  {
    Frames(r, Lines(text[..k]))
  }

  lemma DeliveredAll(r: Reader, text: string)
    ensures Delivered(r, text, |text|) == Frames(r, Lines(text))
  {
    assert text[..|text|] == text;
  }

  /** `line` is the first line of `line + rest`. */
  predicate FirstLine(line: string, rest: string) {
    line != "" && LineLength(line + rest) == |line|
  }

  lemma {:induction false} FirstLineOf(text: string) returns (line: string, rest: string)
    requires text != ""
    ensures text == line + rest && FirstLine(line, rest) && Lines(text) == [line] + Lines(rest)
  {
    line, rest := text[..LineLength(text)], text[LineLength(text)..];
  }

  lemma {:induction false} LinesAfter(line: string, rest: string, k: nat)
    requires FirstLine(line, rest) && k <= |rest|
    ensures Lines((line + rest)[..|line| + k]) == [line] + Lines(rest[..k])
  {
    var text := line + rest;
    CutAfterLine(text, |line| + k);
    assert text[..|line|] == line && text[|line|..] == rest;
  }

  /** Past its first line, a stream delivers what that line does and then the rest. */
  lemma {:induction false} DeliveredStep(r: Reader, text: string, line: string, rest: string, k: nat, k': nat)
    requires text == line + rest && FirstLine(line, rest) && k <= |rest| && k' == |line| + k
    ensures Delivered(r, text, k') == Dispatch(r, line) + Delivered(Fed(r, line), rest, k)
  {
    LinesAfter(line, rest, k);
    FramesThen(r, line, Lines(rest[..k]), Lines(text[..k']));
  }

  lemma FramesThen(r: Reader, line: string, rest: seq<string>, all: seq<string>)
    requires all == [line] + rest
    ensures Frames(r, all) == Dispatch(r, line) + Frames(Fed(r, line), rest)
  {
    FramesCons(r, line, rest);
  }

  lemma FramesCons(r: Reader, line: string, rest: seq<string>)
    ensures Frames(r, [line] + rest) == Dispatch(r, line) + Frames(Fed(r, line), rest)
    ensures FedAll(r, [line] + rest) == FedAll(Fed(r, line), rest)
  {
    assert ([line] + rest)[1..] == rest;
  }

  lemma {:induction false} TrimAllEol(s: string)
    requires TrimEol(s) == "" && s != ""
    ensures IsEol(s[0])
  {
    if |s| > 1 {
      assert TrimEol(s[..|s| - 1]) == "";
      TrimAllEol(s[..|s| - 1]);
    }
  }

  /** A line cut short dispatches the open frame only if it starts with CR. */
  lemma CutDispatch(r: Reader, line: string, k: nat)
    requires 0 < k <= |line| && '\n' !in line[..k]
    ensures Frames(r, [line[..k]]) == [] ||
            (r.inFrame && line[0] == '\r' && Frames(r, [line[..k]]) == [Frame(r.name, r.data)])
  {
    FedOne(r, line[..k]);
    if TrimEol(line[..k]) == "" {
      TrimAllEol(line[..k]);
      assert line[..k][0] in line[..k];
    }
  }

  lemma LoneCr(r: Reader)
    requires r.inFrame
    ensures Frames(r, ["\r"]) == [Frame(r.name, r.data)]
  {
    assert "\r"[..0] == "";
    FedOne(r, "\r");
  }

  /** A line with content that starts with CR is no field the reader knows. */
  lemma StrayLine(r: Reader, line: string)
    requires line != "" && !Benign(line)
    ensures Fed(r, line) == r.(inFrame := true) && Dispatch(r, line) == []
  {
    TrimShortens(line);
    assert Field(TrimEol(line))[0] == '\r';
  }

  // ------------------------------------------- against the whole of a stream

  /** The next frame the lines dispatch is `f`. */
  predicate Delivers(f: Frame, r: Reader, lines: seq<string>)
    decreases |lines|
  {
    lines != [] &&
    if TrimEol(lines[0]) == "" then r.inFrame && Frame(r.name, r.data) == f
    else Delivers(f, Fed(r, lines[0]), lines[1..])
  }

  lemma {:induction false} DeliversFirst(f: Frame, r: Reader, lines: seq<string>)
    requires r.inFrame
    ensures Delivers(f, r, lines) <==> Frames(r, lines) != [] && Frames(r, lines)[0] == f
    decreases |lines|
  {
    if lines != [] && TrimEol(lines[0]) != "" {
      DeliversFirst(f, Fed(r, lines[0]), lines[1..]);
    }
  }

  /** Wherever a line with content starts with CR inside an open frame, the frame is
      complete: what follows, down to its blank line, adds nothing to it. */
  predicate StraysComplete(r: Reader, lines: seq<string>)
    decreases |lines|
  {
    lines != [] ==>
      && (r.inFrame && !Benign(lines[0]) ==> Delivers(Frame(r.name, r.data), r, lines))
      && StraysComplete(Fed(r, lines[0]), lines[1..])
  }

  lemma {:induction false} CutDelivers(r: Reader, text: string, k: nat)
    requires k <= |text| && StraysComplete(r, Lines(text))
    ensures Delivered(r, text, k) <= Delivered(r, text, |text|)
    decreases |text|
  {
    if k > 0 {
      var line, rest := FirstLineOf(text);
      if |line| <= k {
        TailComplete(r, line, Lines(rest));
        CutDelivers(Fed(r, line), rest, k - |line|);
        Later(r, text, line, rest, k - |line|, |rest|, k, |text|);
      } else {
        CutInside(r, text, k);
      }
    }
  }

  lemma TailComplete(r: Reader, line: string, rest: seq<string>)
    requires StraysComplete(r, [line] + rest)
    ensures StraysComplete(Fed(r, line), rest)
  {
    assert ([line] + rest)[1..] == rest;
  }

  lemma {:induction false} CutInside(r: Reader, text: string, k: nat)
    requires 0 < k <= |text| && k < LineLength(text) && StraysComplete(r, Lines(text))
    ensures Delivered(r, text, k) <= Delivered(r, text, |text|)
  {
    var line := text[..LineLength(text)];
    CutInLine(text, k);
    assert text[..k] == line[..k];
    CutDispatch(r, line, k);
    DeliveredAll(r, text);
    if r.inFrame {
      DeliversFirst(Frame(r.name, r.data), r, Lines(text));
    }
  }

  /** A stream with an incomplete frame at such a line, cut after its CR, delivers a
      frame that is not the next one. */
  lemma {:induction false} CutMisleads(r: Reader, text: string) returns (k: nat)
    requires !StraysComplete(r, Lines(text))
    ensures k <= |text| && !(Delivered(r, text, k) <= Delivered(r, text, |text|))
    decreases |text|
  {
    var line, rest := FirstLineOf(text);
    if r.inFrame && !Benign(line) && !Delivers(Frame(r.name, r.data), r, Lines(text)) {
      k := 1;
      AfterCr(r, line, rest);
      DeliveredAll(r, text);
      DeliversFirst(Frame(r.name, r.data), r, Lines(text));
    } else {
      assert ([line] + Lines(rest))[1..] == Lines(rest);
      var j := CutMisleads(Fed(r, line), rest);
      k := |line| + j;
      Later(r, text, line, rest, j, |rest|, k, |text|);
    }
  }

  /** Past the first line, one cut shows a prefix of another as the rest alone does. */
  lemma {:induction false} Later(r: Reader, text: string, line: string, rest: string, j: nat, k: nat, j': nat, k': nat)
    requires text == line + rest && FirstLine(line, rest) && j <= |rest| && k <= |rest|
    requires j' == |line| + j && k' == |line| + k
    ensures Delivered(r, text, j') <= Delivered(r, text, k') <==>
            Delivered(Fed(r, line), rest, j) <= Delivered(Fed(r, line), rest, k)
  {
    DeliveredStep(r, text, line, rest, j, j');
    DeliveredStep(r, text, line, rest, k, k');
    CommonHead(Dispatch(r, line), Delivered(Fed(r, line), rest, j), Delivered(Fed(r, line), rest, k),
               Delivered(r, text, j'), Delivered(r, text, k'));
  }

  lemma {:induction false} AfterCr(r: Reader, line: string, rest: string)
    requires FirstLine(line, rest) && r.inFrame && !Benign(line)
    ensures |line| > 1 && Delivered(r, line + rest, 1) == [Frame(r.name, r.data)]
  {
    assert line[0] == '\r' && (line + rest)[..1] == "\r";
    assert "\r"[..0] == "" && TrimEol("\r") == "";
    assert line != "\r";
    CutInLine(line + rest, 1);
    LoneCr(r);
  }

  lemma CommonHead<T>(head: seq<T>, a: seq<T>, b: seq<T>, a': seq<T>, b': seq<T>)
    requires a' == head + a && b' == head + b
    ensures a' <= b' <==> a <= b
  {
    if a' <= b' {
      assert a == a'[|head|..] == b'[|head|..][..|a|];
    }
  }

  /** Cutting the connection after any character delivers a prefix of the stream's
      frames exactly when every line with content that starts with CR inside an open
      frame finds that frame complete. */
  lemma CutDeliversPrefix(r: Reader, text: string)
    ensures (forall k :: 0 <= k <= |text| ==> Delivered(r, text, k) <= Delivered(r, text, |text|))
            <==> StraysComplete(r, Lines(text))
  {
    if StraysComplete(r, Lines(text)) {
      forall k | 0 <= k <= |text| ensures Delivered(r, text, k) <= Delivered(r, text, |text|) {
        CutDelivers(r, text, k);
      }
    } else {
      var k := CutMisleads(r, text);
    }
  }

  // ------------------------------------------------- against a longer prefix

  /** No line with content starts with CR while a frame is open. */
  predicate NoStray(r: Reader, lines: seq<string>)
    decreases |lines|
  {
    lines != [] ==> (r.inFrame ==> Benign(lines[0])) && NoStray(Fed(r, lines[0]), lines[1..])
  }

  lemma {:induction false} NoStrayComplete(r: Reader, lines: seq<string>)
    requires NoStray(r, lines)
    ensures StraysComplete(r, lines)
    decreases |lines|
  {
    if lines != [] {
      NoStrayComplete(Fed(r, lines[0]), lines[1..]);
    }
  }

  lemma {:induction false} TrimPrefix(s: string, k: nat)
    requires TrimEol(s) == "" && k <= |s|
    ensures TrimEol(s[..k]) == ""
  {
    if k < |s| {
      TrimPrefix(s[..|s| - 1], k);
      assert s[..|s| - 1][..k] == s[..k];
    } else {
      assert s[..k] == s;
    }
  }

  /** Cutting a text makes no stray line. */
  lemma {:induction false} CutNoStray(r: Reader, text: string, k: nat)
    requires k <= |text| && NoStray(r, Lines(text))
    ensures NoStray(r, Lines(text[..k]))
    decreases |text|
  {
    if k > 0 {
      var n := LineLength(text);
      var line, rest := text[..n], text[n..];
      NoStrayCons(r, line, Lines(rest));
      if n <= k {
        CutAfterLine(text, k);
        CutNoStray(Fed(r, line), rest, k - n);
        NoStrayCons(r, line, Lines(rest[..k - n]));
      } else {
        CutInLine(text, k);
        assert text[..k] == line[..k] && [line[..k]] == [line[..k]] + [];
        NoStrayCons(r, line[..k], []);
        if r.inFrame {
          BenignPrefix(line, k);
        }
      }
    }
  }

  lemma NoStrayCons(r: Reader, line: string, lines: seq<string>)
    ensures NoStray(r, [line] + lines) <==> (r.inFrame ==> Benign(line)) && NoStray(Fed(r, line), lines)
  {
    assert ([line] + lines)[1..] == lines;
  }

  lemma BenignPrefix(line: string, k: nat)
    requires Benign(line) && 0 < k <= |line|
    ensures Benign(line[..k])
  {
    if line[0] == '\r' {
      TrimPrefix(line, k);
    }
  }

  /** A stray line's CR delivers a frame that the rest of the line takes back. */
  lemma {:induction false} StrayTakesBack(r: Reader, text: string) returns (j: nat, k: nat)
    requires !NoStray(r, Lines(text))
    ensures j <= k <= |text| && !(Delivered(r, text, j) <= Delivered(r, text, k))
    decreases |text|
  {
    var line, rest := FirstLineOf(text);
    if r.inFrame && !Benign(line) {
      j, k := 1, |line|;
      AfterCr(r, line, rest);
      StrayDelivers(r, line, rest);
    } else {
      assert ([line] + Lines(rest))[1..] == Lines(rest);
      var i, m := StrayTakesBack(Fed(r, line), rest);
      j, k := |line| + i, |line| + m;
      Later(r, text, line, rest, i, m, j, k);
    }
  }

  lemma {:induction false} StrayDelivers(r: Reader, line: string, rest: string)
    requires FirstLine(line, rest) && !Benign(line)
    ensures Delivered(r, line + rest, |line|) == []
  {
    DeliveredStep(r, line + rest, line, rest, 0, |line|);
    StrayLine(r, line);
    assert rest[..0] == "";
  }

  /** Frames once delivered stay delivered as more of the stream arrives, wherever the
      cuts fall, exactly when no line with content starts with CR while a frame is
      open. */
  lemma FramesOnlyGrow(r: Reader, text: string)
    ensures (forall j, k :: 0 <= j <= k <= |text| ==> Delivered(r, text, j) <= Delivered(r, text, k))
            <==> NoStray(r, Lines(text))
  {
    if NoStray(r, Lines(text)) {
      forall j, k | 0 <= j <= k <= |text| ensures Delivered(r, text, j) <= Delivered(r, text, k) {
        CutNoStray(r, text, k);
        NoStrayComplete(r, Lines(text[..k]));
        CutDelivers(r, text[..k], j);
        assert text[..k][..j] == text[..j] && text[..k][..k] == text[..k];
      }
    } else {
      var j, k := StrayTakesBack(r, text);
    }
  }

  /** In a stream: after any text that leaves a frame open, a line of CR and content,
      cut after its CR, has delivered a frame that the whole line does not. */
  lemma CutCanMislead(before: string, content: string)
    requires Terminated(before) && FedAll(IDLE, Lines(before)).inFrame
    requires '\n' !in content && TrimEol(content) != ""
    ensures !(Read(before + "\r") <= Read(before + ("\r" + content + "\n")))
  {
    var r, line := FedAll(IDLE, Lines(before)), "\r" + content;
    OnlyCr();
    LoneCr(r);
    ReadAfter(before, "\r");
    OneLine(line);
    ContentLine(content);
    StrayLine(r, line + "\n");
    FedOne(r, line + "\n");
    ReadAfter(before, line + "\n");
  }

  lemma OnlyCr()
    ensures Lines("\r") == ["\r"]
  {
    assert LineLength("\r") == 1 && "\r"[1..] == "" && "\r"[..1] == "\r";
    assert Lines("\r") == ["\r"[..1]] + Lines("\r"[1..]);
  }

  lemma ReadAfter(before: string, text: string)
    requires Terminated(before)
    ensures Read(before + text) == Read(before) + Frames(FedAll(IDLE, Lines(before)), Lines(text))
  {
    LinesAppend(before, text);
    FedAppend(IDLE, Lines(before), Lines(text));
  }

  lemma ContentLine(content: string)
    requires TrimEol(content) != ""
    ensures !Benign("\r" + content + "\n")
  {
    var line := "\r" + content + "\n";
    TrimNewline("\r" + content);
    if TrimEol(line) == "" {
      SuffixTrims("\r", content);
    }
  }

  lemma {:induction false} SuffixTrims(p: string, s: string)
    requires TrimEol(p + s) == ""
    ensures TrimEol(s) == ""
  {
    if s != "" {
      assert (p + s)[..|p + s| - 1] == p + s[..|s| - 1];
      SuffixTrims(p, s[..|s| - 1]);
    }
  }
}
