/** The two generate buttons (script.js:145-166): build the requested number of
    sets, show them, and report on the status line. */
module Generate {
  import opened Text
  import opened Random
  import opened Lotto
  import opened Pension
  import opened Display
  import opened Status

  /** The `for` loop of the lotto button (script.js:147-151): `numSets` calls of
      `generateLottoNumbers`, the i-th call drawing from `streams[i]`, appended
      in call order. */
  method BuildLottoSets(numSets: nat, streams: seq<seq<real>>) returns (allLottoSets: seq<seq<int>>)
    requires numSets <= |streams|
    requires forall i :: 0 <= i < numSets ==> CanDraw(streams[i])
    ensures |allLottoSets| == numSets
    ensures forall i :: 0 <= i < numSets ==> allLottoSets[i] == LottoOf(streams[i])
    ensures forall i :: 0 <= i < numSets ==> IsLottoSet(allLottoSets[i])
  {
    allLottoSets := [];
    for i := 0 to numSets
      invariant |allLottoSets| == i
      invariant forall k :: 0 <= k < i ==> allLottoSets[k] == LottoOf(streams[k])
    {
      var numbers, _ := GenerateLottoNumbers(streams[i]);
      allLottoSets := allLottoSets + [numbers];
    }
  }

  /** The `for` loop of the pension button (script.js:159-163): each pension
      number is wrapped as a one-element list. */
  method BuildPensionSets(numSets: nat, randoms: seq<(real, real)>) returns (allPensionSets: seq<seq<string>>)
    requires numSets <= |randoms|
    requires forall i :: 0 <= i < numSets ==> IsUnit(randoms[i].0) && IsUnit(randoms[i].1)
    ensures |allPensionSets| == numSets
    ensures forall i :: 0 <= i < numSets ==>
      allPensionSets[i] == [GeneratePensionNumbers(randoms[i].0, randoms[i].1)]
    ensures forall i :: 0 <= i < numSets ==>
      |allPensionSets[i]| == 1 && IsPensionNumber(allPensionSets[i][0])
  {
    allPensionSets := [];
    for i := 0 to numSets
      invariant |allPensionSets| == i
      invariant forall k :: 0 <= k < i ==>
        allPensionSets[k] == [GeneratePensionNumbers(randoms[k].0, randoms[k].1)]
    {
      allPensionSets := allPensionSets + [[GeneratePensionNumbers(randoms[i].0, randoms[i].1)]];
    }
  }

  /** What a span shows for a lotto ball: `span.textContent = num` stores `String(num)`. */
  function LottoTexts(numbers: seq<int>): (texts: seq<string>)
    requires InRange(numbers)
    ensures |texts| == |numbers|
    ensures forall i :: 0 <= i < |numbers| ==>
      AllDigits(texts[i]) && ParseDecimal(texts[i]) == numbers[i]
  {
    var texts := seq(|numbers|, i requires 0 <= i < |numbers| => NatToString(numbers[i]));
    forall i | 0 <= i < |numbers| ensures ParseDecimal(texts[i]) == numbers[i] {
      ParseNatToString(numbers[i]);
    }
    texts
  }

  /** The span texts of every generated lotto set: six per set, the j-th of
      set i a decimal string that reads back as that set's j-th number. */
  function AllLottoTexts(sets: seq<seq<int>>): (texts: seq<seq<string>>)
    requires forall i :: 0 <= i < |sets| ==> IsLottoSet(sets[i])
    ensures |texts| == |sets|
    ensures forall i :: 0 <= i < |sets| ==> |texts[i]| == |sets[i]| == PickCount
    ensures forall i, j :: 0 <= i < |sets| && 0 <= j < |sets[i]| ==>
      AllDigits(texts[i][j]) && ParseDecimal(texts[i][j]) == sets[i][j]
  {
    seq(|sets|, i requires 0 <= i < |sets| && IsLottoSet(sets[i]) => LottoTexts(sets[i]))
  }

  /** The lotto button's click handler (script.js:145-154). */
  method OnGenerateLotto(container: Container, numSets: nat, streams: seq<seq<real>>)
    returns (status: Message)
    requires numSets <= |streams|
    requires forall i :: 0 <= i < numSets ==> CanDraw(streams[i])
    modifies container
    ensures container.items ==
      Rendered(seq(numSets, i requires 0 <= i < numSets && CanDraw(streams[i]) => LottoTexts(LottoOf(streams[i]))))
    ensures |container.Displayed()| == numSets
    ensures forall i :: 0 <= i < numSets ==>
      container.Displayed()[i] == LottoTexts(LottoOf(streams[i]))
    ensures status == Message("로또 번호 " + NatToString(numSets) + "세트가 생성되었어요! 행운을 빌어요! 😄", false)
  {
    var allLottoSets := BuildLottoSets(numSets, streams);
    var shown := AllLottoTexts(allLottoSets);
    assert shown == seq(numSets, i requires 0 <= i < numSets && CanDraw(streams[i]) => LottoTexts(LottoOf(streams[i])));
    container.DisplayMultipleSets(shown);
    NonEmptyAll(shown);
    status := Message("로또 번호 " + NatToString(numSets) + "세트가 생성되었어요! 행운을 빌어요! 😄", false);
  }

  /** The pension button's click handler (script.js:157-166). */
  method OnGeneratePension(container: Container, numSets: nat, randoms: seq<(real, real)>)
    returns (status: Message)
    requires numSets <= |randoms|
    requires forall i :: 0 <= i < numSets ==> IsUnit(randoms[i].0) && IsUnit(randoms[i].1)
    modifies container
    ensures container.items ==
      Rendered(seq(numSets, i requires 0 <= i < numSets && IsUnit(randoms[i].0) && IsUnit(randoms[i].1) =>
        [GeneratePensionNumbers(randoms[i].0, randoms[i].1)]))
    ensures |container.Displayed()| == numSets
    ensures forall i :: 0 <= i < numSets ==>
      container.Displayed()[i] == [GeneratePensionNumbers(randoms[i].0, randoms[i].1)]
    ensures status == Message("연금복권 번호 " + NatToString(numSets) + "세트가 생성되었어요! 부자되세요~! 💰", false)
  {
    var allPensionSets := BuildPensionSets(numSets, randoms);
    assert allPensionSets == seq(numSets, i requires 0 <= i < numSets && IsUnit(randoms[i].0) && IsUnit(randoms[i].1) =>
      [GeneratePensionNumbers(randoms[i].0, randoms[i].1)]);
    container.DisplayMultipleSets(allPensionSets);
    NonEmptyAll(allPensionSets);
    status := Message("연금복권 번호 " + NatToString(numSets) + "세트가 생성되었어요! 부자되세요~! 💰", false);
  }
}
