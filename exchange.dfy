/** What happens to a validated input line once the client has built its
    dictionary and the server has decoded it. The JSON encoding in between
    carries numbers and strings unchanged, so the server's request is the
    client's dictionary itself. */
module Exchange {
  import opened Common
  import opened App
  import opened Server

  /** The profile a well-ordered five-field list stands for. */
  predicate ProfileShaped(dataList: seq<Value>) {
    && |dataList| >= |UserStates|
    && dataList[0].Num? && dataList[1].Num? && dataList[2].Str?
    && dataList[3].Num? && dataList[4].Num?
  }

  /** A list with fewer than five fields leaves a key out of the
      dictionary, and the server then raises before answering. */
  lemma ShortListGetsNoResponse(dataList: seq<Value>)
    requires |dataList| < |UserStates|
    ensures HandleClient(GenerateDict(dataList)).Failure?
  {
  }

  /** A list of the expected shape with a non-zero height is answered, with
      the engine's metrics of that profile. */
  lemma ProfileListGetsResponse(dataList: seq<Value>)
    requires ProfileShaped(dataList) && dataList[0].x != 0.0
    ensures
      var p := Profile(dataList[0].x, dataList[1].x, dataList[2].s, dataList[3].x, dataList[4].x);
      HandleClient(GenerateDict(dataList)) == Success(Response(
        GenerateImc(p).value, GetImcStatus(p).value, GenerateBmr(p),
        CalculateCalorieIntake(p), CalculateNutrients(p)))
  {
  }

  /** The input "1.70" alone passes `validate_data` on the first parse (no
      "fill in all the data" retry), and the server then fails with
      `KeyError('weight')` and sends nothing back. */
  lemma ShortInputAccepted(parse: string -> Option<real>)
    requires parse("1.70") == Some(1.7)
    ensures Clean(["1.70"], parse) == Success([Num(1.7)])
    ensures "weight" !in GenerateDict([Num(1.7)])
    ensures HandleClient(GenerateDict([Num(1.7)])) == Failure(KeyError("weight"))
  {
    MarkerTokens("1.70");
    var none: seq<string> := [];
    CleanSnoc(none, "1.70", parse);
    assert none + ["1.70"] == ["1.70"];
    assert Clean(none, parse).value + [Num(1.7)] == [Num(1.7)];
    var d := GenerateDict([Num(1.7)]);
    assert UserStates[0] in d && UserStates[1] !in d;
  }

  /** The documented sample line, typed with a doubled space: the blank
      token is dropped and "M" is kept verbatim. */
  lemma SampleLineParses(parse: string -> Option<real>)
    requires parse("1.70") == Some(1.7) && parse("70.0") == Some(70.0)
    requires parse("3") == Some(3.0) && parse("20") == Some(20.0)
    ensures Clean(["1.70", "", "70.0", "M", "3", "20"], parse)
         == Success([Num(1.7), Num(70.0), Str("M"), Num(3.0), Num(20.0)])
  {
    var line := ["1.70", "", "70.0", "M", "3", "20"];
    MarkerTokens("1.70");
    MarkerTokens("70.0");
    MarkerTokens("M");
    MarkerTokens("3");
    MarkerTokens("20");
    var none: seq<string> := [];
    var empty: seq<Value> := [];
    CleanSnoc(none, "1.70", parse);
    assert none + ["1.70"] == line[..1] && empty + [Num(1.7)] == [Num(1.7)];
    assert line[..2][..1] == line[..1];
    CleanSnoc(line[..2], "70.0", parse);
    assert line[..2] + ["70.0"] == line[..3] && [Num(1.7)] + [Num(70.0)] == [Num(1.7), Num(70.0)];
    CleanSnoc(line[..3], "M", parse);
    assert line[..3] + ["M"] == line[..4];
    assert [Num(1.7), Num(70.0)] + [Str("M")] == [Num(1.7), Num(70.0), Str("M")];
    CleanSnoc(line[..4], "3", parse);
    assert line[..4] + ["3"] == line[..5];
    assert [Num(1.7), Num(70.0), Str("M")] + [Num(3.0)] == [Num(1.7), Num(70.0), Str("M"), Num(3.0)];
    CleanSnoc(line[..5], "20", parse);
    assert line[..5] + ["20"] == line;
    assert [Num(1.7), Num(70.0), Str("M"), Num(3.0)] + [Num(20.0)] == [Num(1.7), Num(70.0), Str("M"), Num(3.0), Num(20.0)];
  }

  /** The server's answer to that line: imc 70 / 1.70², "Normal weight",
      BMR 1667.5, intake 5002.5 and 210/70/49 g of carbohydrates, proteins
      and fats. */
  lemma SampleRequestAnswered()
    ensures HandleClient(GenerateDict([Num(1.7), Num(70.0), Str("M"), Num(3.0), Num(20.0)]))
         == Success(Response(70.0 / 2.89, NormalWeight, 1667.5, 5002.5, Nutrients(210.0, 70.0, 49.0)))
  {
  }
}
