/** The text the Kakao button shares (script.js:255-272): a fixed header, an
    optional lotto section, an optional pension section and a fixed footer; a
    section has a count line and one numbered line per set. */
module Share {
  import opened Text

  const HeaderLine := "💖 다은이와 다솜이가 추천하는 행운 번호! 💖"
  const FooterLine := "오늘의 행운을 잡으세요! 😉"

  function LottoTitle(count: nat): string {
    "🍀 로또 번호 (" + NatToString(count) + "세트):"
  }

  function PensionTitle(count: nat): string {
    "💰 연금복권 번호 (" + NatToString(count) + "세트):"
  }

  /** `  ${index + 1}세트: ${set.join(', ')}` without its line feed. */
  function SetLine(number: nat, values: seq<string>): string {
    "  " + NatToString(number) + "세트: " + Join(values, ", ")
  }

  /** A set's line is a two-space indent, the set's number in decimal (it
      reads back as that number), the word "세트: ", then the values separated
      by ", ". */
  lemma SetLineLayout(number: nat, values: seq<string>)
    ensures var line := SetLine(number, values);
      var width := |NatToString(number)|;
      && 2 + width + 4 <= |line|
      && line[..2] == "  "
      && AllDigits(line[2..2 + width]) && ParseDecimal(line[2..2 + width]) == number
      && line[2 + width..2 + width + 4] == "세트: "
      && line[2 + width + 4..] == Join(values, ", ")
  {
    var digits := NatToString(number);
    assert SetLine(number, values)[2..2 + |digits|] == digits;
    ParseNatToString(number);
  }

  /** The numbered lines of a section, each ended by a line feed. */
  function SetLines(sets: seq<seq<string>>): string {
    if sets == [] then ""
    else SetLines(sets[..|sets| - 1]) + SetLine(|sets|, sets[|sets| - 1]) + "\n"
  }

  /** The numbered lines of a section, as a list: line i (from 1) shows the
      i-th set. */
  function SetLineList(sets: seq<seq<string>>): seq<string> {
    seq(|sets|, i requires 0 <= i < |sets| => SetLine(i + 1, sets[i]))
  }

  /** Ending each numbered line with a line feed gives the text the handler's
      `forEach` appends. */
  lemma {:induction false} SetLinesTerminated(sets: seq<seq<string>>)
    ensures Terminated(SetLineList(sets)) == SetLines(sets)
  {
    if sets != [] {
      var init := sets[..|sets| - 1];
      SetLinesTerminated(init);
      assert SetLineList(sets)[..|sets| - 1] == SetLineList(init);
    }
  }

  function SectionLines(title: string, sets: seq<seq<string>>): seq<string> {
    if sets == [] then [] else ["", title] + SetLineList(sets)
  }

  function Section(title: string, sets: seq<seq<string>>): string {
    if sets == [] then "" else "\n" + title + "\n" + SetLines(sets)
  }

  /** One `if (sets.length > 0)` block of the handler: nothing for no sets,
      otherwise a blank line, the count line and the numbered lines, each line
      ended by a line feed. */
  lemma SectionTerminated(title: string, sets: seq<seq<string>>)
    ensures Section(title, sets) == Terminated(SectionLines(title, sets))
  {
    if sets != [] {
      TerminatedAppend(["", title], SetLineList(sets));
      SetLinesTerminated(sets);
      assert Terminated(["", title]) == "\n" + title + "\n" by {
        assert ["", title][..1] == [""];
        assert [""][..0] == [];
      }
    }
  }

  /** The share text as a list of lines, read independently of how the handler
      concatenates it: header, the optional sections each after a blank line,
      a blank line and the footer. */
  function ShareLines(lottoSets: seq<seq<string>>, pensionSets: seq<seq<string>>): seq<string> {
    [HeaderLine]
      + SectionLines(LottoTitle(|lottoSets|), lottoSets)
      + SectionLines(PensionTitle(|pensionSets|), pensionSets)
      + ["", FooterLine]
  }

  /** `messageText` once the handler has appended everything: the share lines
      joined by line feeds. */
  function ShareText(lottoSets: seq<seq<string>>, pensionSets: seq<seq<string>>): (r: string)
    ensures r == Join(ShareLines(lottoSets, pensionSets), "\n")
  {
    var lotto := SectionLines(LottoTitle(|lottoSets|), lottoSets);
    var pension := SectionLines(PensionTitle(|pensionSets|), pensionSets);
    var body := [HeaderLine] + lotto + pension + [""];
    assert ShareLines(lottoSets, pensionSets) == body + [FooterLine];
    JoinLines(body, FooterLine);
    TerminatedAppend([HeaderLine] + lotto + pension, [""]);
    TerminatedAppend([HeaderLine] + lotto, pension);
    TerminatedAppend([HeaderLine], lotto);
    assert Terminated([HeaderLine]) == HeaderLine + "\n";
    assert Terminated([""]) == "\n";
    SectionTerminated(LottoTitle(|lottoSets|), lottoSets);
    SectionTerminated(PensionTitle(|pensionSets|), pensionSets);
    HeaderLine + "\n"
      + Section(LottoTitle(|lottoSets|), lottoSets)
      + Section(PensionTitle(|pensionSets|), pensionSets)
      + "\n" + FooterLine
  }

  /** The `forEach` loop of one section: append each set's numbered line. */
  method AppendSetLines(text: string, sets: seq<seq<string>>) returns (messageText: string)
    ensures messageText == text + SetLines(sets)
  {
    messageText := text;
    for index := 0 to |sets|
      invariant messageText == text + SetLines(sets[..index])
    {
      assert sets[..index + 1][..index] == sets[..index];
      messageText := messageText + SetLine(index + 1, sets[index]) + "\n";
    }
    assert sets[..|sets|] == sets;
  }

  /** One `if (sets.length > 0) { ... }` block: the count line, then the
      numbered lines. */
  method AppendSection(text: string, title: string, sets: seq<seq<string>>)
    returns (messageText: string)
    ensures messageText == text + Section(title, sets)
  {
    messageText := text;
    if |sets| > 0 {
      messageText := messageText + "\n" + title + "\n";
      messageText := AppendSetLines(messageText, sets);
    }
  }

  /** The `+=` assembly of `messageText` (script.js:256-272). */
  method BuildShareText(lottoSets: seq<seq<string>>, pensionSets: seq<seq<string>>)
    returns (messageText: string)
    ensures messageText == ShareText(lottoSets, pensionSets)
  {
    messageText := HeaderLine + "\n";
    messageText := AppendSection(messageText, LottoTitle(|lottoSets|), lottoSets);
    messageText := AppendSection(messageText, PensionTitle(|pensionSets|), pensionSets);
    messageText := messageText + "\n" + FooterLine;
  }

  /** A section is a blank line, its count line, then line i (from 1) for the
      i-th set; an absent section has no lines. */
  lemma SectionLayout(title: string, sets: seq<seq<string>>)
    ensures var lines := SectionLines(title, sets);
      && |lines| == (if sets == [] then 0 else 2 + |sets|)
      && (sets != [] ==> lines[0] == "" && lines[1] == title)
      && (forall i :: 0 <= i < |sets| ==> lines[2 + i] == SetLine(i + 1, sets[i]))
  {
  }

  /** Where each part sits: the header first, then the lotto section, then the
      pension section, then a blank line and the footer last. */
  lemma ShareLayout(lottoSets: seq<seq<string>>, pensionSets: seq<seq<string>>)
    ensures var lines := ShareLines(lottoSets, pensionSets);
      var lotto := SectionLines(LottoTitle(|lottoSets|), lottoSets);
      var pension := SectionLines(PensionTitle(|pensionSets|), pensionSets);
      && |lines| == 3 + |lotto| + |pension|
      && lines[0] == HeaderLine
      && lines[1..1 + |lotto|] == lotto
      && lines[1 + |lotto|..1 + |lotto| + |pension|] == pension
      && lines[|lines| - 2] == ""
      && lines[|lines| - 1] == FooterLine
  {
    var lotto := SectionLines(LottoTitle(|lottoSets|), lottoSets);
    var pension := SectionLines(PensionTitle(|pensionSets|), pensionSets);
    assert ShareLines(lottoSets, pensionSets) == [HeaderLine] + lotto + pension + ["", FooterLine];
  }

  /** The first character of a line, if any, is `c`. */
  predicate StartsWith(line: string, c: char) {
    |line| > 0 && line[0] == c
  }

  lemma SetLineListIndented(sets: seq<seq<string>>)
    ensures forall line :: line in SetLineList(sets) ==> StartsWith(line, ' ')
  {
    forall line | line in SetLineList(sets) ensures StartsWith(line, ' ') {
      var i :| 0 <= i < |sets| && SetLineList(sets)[i] == line;
    }
  }

  /** A line of the share text that does not start with a space or is empty is
      the header, the footer or the count line of a section that is present. */
  lemma ShareLineKind(lottoSets: seq<seq<string>>, pensionSets: seq<seq<string>>, line: string)
    requires line in ShareLines(lottoSets, pensionSets)
    ensures || line == HeaderLine || line == "" || line == FooterLine
            || StartsWith(line, ' ')
            || (lottoSets != [] && line == LottoTitle(|lottoSets|))
            || (pensionSets != [] && line == PensionTitle(|pensionSets|))
  {
    var lotto := SectionLines(LottoTitle(|lottoSets|), lottoSets);
    var pension := SectionLines(PensionTitle(|pensionSets|), pensionSets);
    assert ShareLines(lottoSets, pensionSets) == [HeaderLine] + lotto + pension + ["", FooterLine];
    if line in lotto && lottoSets != [] && line != "" && line != LottoTitle(|lottoSets|) {
      assert line in SetLineList(lottoSets);
      SetLineListIndented(lottoSets);
    } else if line in pension && pensionSets != [] && line != "" && line != PensionTitle(|pensionSets|) {
      assert line in SetLineList(pensionSets);
      SetLineListIndented(pensionSets);
    }
  }

  /** A line starting with a mark other than the header's, the footer's or a
      space is a section's count line. */
  lemma MarkedLine(lottoSets: seq<seq<string>>, pensionSets: seq<seq<string>>, line: string, mark: char)
    requires line in ShareLines(lottoSets, pensionSets) && StartsWith(line, mark)
    requires mark != ' ' && mark != HeaderLine[0] && mark != FooterLine[0]
    ensures || (lottoSets != [] && line == LottoTitle(|lottoSets|))
            || (pensionSets != [] && line == PensionTitle(|pensionSets|))
  {
    ShareLineKind(lottoSets, pensionSets, line);
  }

  /** The lines starting with 🍀: the lotto count line, present exactly when
      there are lotto sets. */
  lemma LottoPresence(lottoSets: seq<seq<string>>, pensionSets: seq<seq<string>>)
    ensures var lines := ShareLines(lottoSets, pensionSets);
      && ((exists line :: line in lines && StartsWith(line, '🍀')) <==> lottoSets != [])
      && (forall line :: line in lines && StartsWith(line, '🍀') ==> line == LottoTitle(|lottoSets|))
  {
    var lines := ShareLines(lottoSets, pensionSets);
    assert LottoTitle(|lottoSets|)[0] == '🍀';
    assert PensionTitle(|pensionSets|)[0] == '💰';
    forall line | line in lines && StartsWith(line, '🍀')
      ensures lottoSets != [] && line == LottoTitle(|lottoSets|)
    {
      MarkedLine(lottoSets, pensionSets, line, '🍀');
    }
    if lottoSets != [] {
      ShareLayout(lottoSets, pensionSets);
      var lotto := SectionLines(LottoTitle(|lottoSets|), lottoSets);
      assert lines[2] == lines[1..1 + |lotto|][1];
      assert lines[2] in lines && StartsWith(lines[2], '🍀');
    }
  }

  /** The lines starting with 💰: the pension count line, present exactly when
      there are pension sets. */
  lemma PensionPresence(lottoSets: seq<seq<string>>, pensionSets: seq<seq<string>>)
    ensures var lines := ShareLines(lottoSets, pensionSets);
      && ((exists line :: line in lines && StartsWith(line, '💰')) <==> pensionSets != [])
      && (forall line :: line in lines && StartsWith(line, '💰') ==> line == PensionTitle(|pensionSets|))
  {
    var lines := ShareLines(lottoSets, pensionSets);
    assert LottoTitle(|lottoSets|)[0] == '🍀';
    assert PensionTitle(|pensionSets|)[0] == '💰';
    forall line | line in lines && StartsWith(line, '💰')
      ensures pensionSets != [] && line == PensionTitle(|pensionSets|)
    {
      MarkedLine(lottoSets, pensionSets, line, '💰');
    }
    if pensionSets != [] {
      ShareLayout(lottoSets, pensionSets);
      var lotto := SectionLines(LottoTitle(|lottoSets|), lottoSets);
      var pension := SectionLines(PensionTitle(|pensionSets|), pensionSets);
      var k := 2 + |lotto|;
      assert lines[k] == lines[1 + |lotto|..1 + |lotto| + |pension|][1];
      assert lines[k] in lines && StartsWith(lines[k], '💰');
    }
  }
}
