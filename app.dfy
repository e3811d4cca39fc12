/** The client-side profile parsing of `App` in app.py: turning the
    whitespace-split input line into a list of values, zipping that list onto
    the five profile keys, and the loop that re-collects input until a line
    parses.

    Python's `float()` is the parameter `parse`: a partial function from a
    token to a real number. `input()` (reached through `collect_user_data`) is
    a script: the sequence of token lists the user would type, one per
    re-collection. */
module App {
  import opened Common

  /** The five keys of the profile dictionary, in positional order. */
  const UserStates: seq<string> := ["height", "weight", "gender", "activityLevel", "age"]

  /** The `ValueError` that `float()` raises, with the offending token. */
  datatype ParseError = ValueError(token: string)

  /** A token kept verbatim: its lower-case form is "m" or "f". */
  predicate IsMarker(token: string) {
    Lower(token) == "m" || Lower(token) == "f"
  }

  lemma MarkerTokens(token: string)
    ensures IsMarker(token) <==> token in ["m", "M", "f", "F"]
    ensures |token| != 1 ==> !IsMarker(token)
  {
    LowerSingleLetter(token, 'm');
    LowerSingleLetter(token, 'f');
  }

  /** One non-empty token: a marker stays a string, anything else goes
      through `float()`. */
  function Convert(token: string, parse: string -> Option<real>): (r: Result<Value, ParseError>)
    ensures r.Failure? <==> !IsMarker(token) && parse(token).None?
    ensures r.Failure? ==> r.error == ValueError(token)
  {
    if IsMarker(token) then Success(Str(token))
    else match parse(token)
      case Some(x) => Success(Num(x))
      case None => Failure(ValueError(token))
  }

  /** What `list_user_data` computes, token by token as its loop does:
      the first failing conversion aborts the whole call. */
  function Clean(values: seq<string>, parse: string -> Option<real>): Result<seq<Value>, ParseError>
    decreases |values|
  {
    if values == [] then Success([])
    else
      var init := Clean(values[..|values| - 1], parse);
      var value := values[|values| - 1];
      if init.Failure? || value == "" then init
      else match Convert(value, parse)
        case Success(v) => Success(init.value + [v])
        case Failure(e) => Failure(e)
  }

  /** One more token extends a successful parse by its conversion. */
  lemma CleanSnoc(values: seq<string>, value: string, parse: string -> Option<real>)
    requires Clean(values, parse).Success? && value != ""
    requires Convert(value, parse).Success?
    ensures Clean(values + [value], parse) == Success(Clean(values, parse).value + [Convert(value, parse).value])
  {
  }

  /** The non-empty tokens, in input order. */
  function NonEmpty(values: seq<string>): (r: seq<string>)
    ensures |r| <= |values|
    ensures forall i :: 0 <= i < |r| ==> r[i] != ""
    ensures forall i :: 0 <= i < |values| && values[i] != "" ==> values[i] in r
    decreases |values|
  {
    if values == [] then []
    else
      var value := values[|values| - 1];
      NonEmpty(values[..|values| - 1]) + (if value == "" then [] else [value])
  }

  /** A failure anywhere in a prefix is the failure of the whole list. */
  lemma {:induction false} CleanPrefixFailure(values: seq<string>, parse: string -> Option<real>, i: nat)
    requires i <= |values|
    requires Clean(values[..i], parse).Failure?
    ensures Clean(values, parse) == Clean(values[..i], parse)
    decreases |values| - i
  {
    if i < |values| {
      var n := |values|;
      assert values[..n - 1][..i] == values[..i];
      CleanPrefixFailure(values[..n - 1], parse, i);
    } else {
      assert values[..i] == values;
    }
  }

  /** `list_user_data` succeeds exactly when every non-empty token that is
      not a marker parses as a number. */
  lemma {:induction false} CleanSucceedsIff(values: seq<string>, parse: string -> Option<real>)
    ensures Clean(values, parse).Success? <==>
      forall i :: 0 <= i < |values| && values[i] != "" && !IsMarker(values[i]) ==> parse(values[i]).Some?
    decreases |values|
  {
    if values != [] {
      var n := |values|;
      var init := values[..n - 1];
      CleanSucceedsIff(init, parse);
      assert forall i :: 0 <= i < n - 1 ==> init[i] == values[i];
    }
  }

  /** On success, entry i comes from the i-th non-empty token: a marker is
      kept verbatim as a string, any other token becomes its parsed number.
      So empty tokens never produce an entry and the order is preserved. */
  lemma {:induction false} CleanFollowsTokens(values: seq<string>, parse: string -> Option<real>)
    requires Clean(values, parse).Success?
    ensures |Clean(values, parse).value| == |NonEmpty(values)|
    ensures forall i :: 0 <= i < |NonEmpty(values)| ==>
      var t, v := NonEmpty(values)[i], Clean(values, parse).value[i];
      (IsMarker(t) ==> v == Str(t)) && (!IsMarker(t) ==> parse(t).Some? && v == Num(parse(t).value))
    decreases |values|
  {
    if values != [] {
      var n := |values|;
      CleanFollowsTokens(values[..n - 1], parse);
    }
  }

  /** On failure, the reported token is the first non-empty, non-marker
      token that does not parse; no partial list is returned. */
  lemma {:induction false} CleanReportsFirstBadToken(values: seq<string>, parse: string -> Option<real>)
    returns (k: nat)
    requires Clean(values, parse).Failure?
    ensures k < |values| && values[k] == Clean(values, parse).error.token
    ensures values[k] != "" && !IsMarker(values[k]) && parse(values[k]).None?
    ensures forall j :: 0 <= j < k && values[j] != "" && !IsMarker(values[j]) ==> parse(values[j]).Some?
    decreases |values|
  {
    var n := |values|;
    var init := values[..n - 1];
    if Clean(init, parse).Failure? {
      k := CleanReportsFirstBadToken(init, parse);
    } else {
      k := n - 1;
      CleanSucceedsIff(init, parse);
    }
  }

  /** `list_user_data`: one pass over the tokens, appending to a list. */
  method ListUserData(values: seq<string>, parse: string -> Option<real>) returns (r: Result<seq<Value>, ParseError>)
    ensures r == Clean(values, parse)
  {
    var dataList: seq<Value> := [];
    for i := 0 to |values|
      invariant Clean(values[..i], parse) == Success(dataList)
    {
      var value := values[i];
      assert values[..i + 1][..i] == values[..i];
      if value != "" {
        if IsMarker(value) {
          dataList := dataList + [Str(value)];
        } else {
          var x := parse(value);
          if x.None? {
            CleanPrefixFailure(values, parse, i + 1);
            return Failure(ValueError(value));
          }
          dataList := dataList + [Num(x.value)];
        }
      }
    }
    assert values[..|values|] == values;
    r := Success(dataList);
  }

  /** Python's `zip`: pairs up positions and stops at the shorter input. */
  function Zip<A, B>(a: seq<A>, b: seq<B>): (r: seq<(A, B)>)
    ensures |r| == if |a| < |b| then |a| else |b|
    ensures forall i :: 0 <= i < |r| ==> r[i] == (a[i], b[i])
  {
    if a == [] || b == [] then [] else [(a[0], b[0])] + Zip(a[1..], b[1..])
  }

  /** Python's `dict(pairs)`: insert the pairs in order, a later one
      overriding an earlier one with the same key. */
  function DictOf<K, V>(pairs: seq<(K, V)>): map<K, V>
    decreases |pairs|
  {
    if pairs == [] then map[]
    else
      var last := pairs[|pairs| - 1];
      DictOf(pairs[..|pairs| - 1])[last.0 := last.1]
  }

  /** With distinct keys, `dict(pairs)` maps each key to its own value and
      holds no other key. */
  lemma {:induction false} DictOfDistinctKeys<K, V>(pairs: seq<(K, V)>)
    requires forall i, j :: 0 <= i < j < |pairs| ==> pairs[i].0 != pairs[j].0
    ensures forall i :: 0 <= i < |pairs| ==> pairs[i].0 in DictOf(pairs) && DictOf(pairs)[pairs[i].0] == pairs[i].1
    ensures forall k :: k in DictOf(pairs) ==> exists i :: 0 <= i < |pairs| && pairs[i].0 == k
    decreases |pairs|
  {
    if pairs != [] {
      DictOfDistinctKeys(pairs[..|pairs| - 1]);
    }
  }

  lemma UserStatesDistinct()
    ensures forall i, j :: 0 <= i < j < |UserStates| ==> UserStates[i] != UserStates[j]
  {
  }

  /** `generate_dict`: `dict(zip(user_states, data_list))`. It never fails:
      element i goes under the i-th key, elements past the fifth are dropped,
      and with fewer than five elements the later keys are simply absent. */
  function GenerateDict(dataList: seq<Value>): (d: map<string, Value>)
    ensures forall i :: 0 <= i < |UserStates| ==> (UserStates[i] in d <==> i < |dataList|)
    ensures forall i :: 0 <= i < |UserStates| && i < |dataList| ==> d[UserStates[i]] == dataList[i]
    ensures forall k :: k in d ==> k in UserStates
  {
    var pairs := Zip(UserStates, dataList);
    UserStatesDistinct();
    DictOfDistinctKeys(pairs);
    DictOf(pairs)
  }

  /** Only the first five elements reach the dictionary. */
  lemma GenerateDictDropsExtra(dataList: seq<Value>)
    requires |dataList| > |UserStates|
    ensures GenerateDict(dataList) == GenerateDict(dataList[..|UserStates|])
  {
  }

  /** The input line that is current after `k` re-collections: the initial
      one for `k == 0`, then the scripted ones in order. */
  function Attempt(values: seq<string>, script: seq<seq<string>>, k: nat): seq<string>
    requires k <= |script|
  {
    if k == 0 then values else script[k - 1]
  }

  /** `validate_data`: parse the current line; on `ValueError` re-collect a
      line and try again, with no retry bound. It returns the parse of the
      first line that parses, after exactly as many re-collections as lines
      that failed before it. When the script runs out first, the result is
      `None`: while standard input stays open the source would still be
      waiting at `input()`; at end of input `input()` raises `EOFError`,
      which `validate_data` does not catch. */
  method ValidateData(values: seq<string>, script: seq<seq<string>>, parse: string -> Option<real>)
    returns (outcome: Option<seq<Value>>, recollected: nat)
    ensures recollected <= |script|
    ensures forall j :: 0 <= j < recollected ==> Clean(Attempt(values, script, j), parse).Failure?
    ensures outcome.Some? <==> Clean(Attempt(values, script, recollected), parse).Success?
    ensures outcome.Some? ==> Clean(Attempt(values, script, recollected), parse) == Success(outcome.value)
    ensures outcome.None? ==> recollected == |script|
    ensures Clean(values, parse).Success? ==> recollected == 0 && outcome == Some(Clean(values, parse).value)
  {
    var current := values;
    recollected := 0;
    while true
      invariant recollected <= |script|
      invariant current == Attempt(values, script, recollected)
      invariant forall j :: 0 <= j < recollected ==> Clean(Attempt(values, script, j), parse).Failure?
      decreases |script| - recollected
    {
      var dataList := ListUserData(current, parse);
      if dataList.Success? {
        // The dictionary of the try block is built and discarded; it cannot fail.
        var _ := GenerateDict(dataList.value);
        // The else branch parses the line once more and returns that list.
        dataList := ListUserData(current, parse);
        return Some(dataList.value), recollected;
      }
      if recollected == |script| {
        return None, recollected;
      }
      current := script[recollected];
      recollected := recollected + 1;
    }
  }

  /** A line that yields all five fields. */
  predicate Complete(values: seq<string>, parse: string -> Option<real>) {
    Clean(values, parse).Success? && |Clean(values, parse).value| >= |UserStates|
  }

  /** `validate_data` as its documentation describes it: a line that parses
      but yields fewer than five fields is rejected like one that does not
      parse ("Please fill in all the data"), so an accepted list fills every
      key of the profile dictionary. */
  method ValidateComplete(values: seq<string>, script: seq<seq<string>>, parse: string -> Option<real>)
    returns (outcome: Option<seq<Value>>, recollected: nat)
    ensures recollected <= |script|
    ensures forall j :: 0 <= j < recollected ==> !Complete(Attempt(values, script, j), parse)
    ensures outcome.Some? <==> Complete(Attempt(values, script, recollected), parse)
    ensures outcome.Some? ==> Clean(Attempt(values, script, recollected), parse) == Success(outcome.value)
    ensures outcome.Some? ==> forall k :: k in UserStates ==> k in GenerateDict(outcome.value)
    ensures outcome.None? ==> recollected == |script|
  {
    var current := values;
    recollected := 0;
    while true
      invariant recollected <= |script|
      invariant current == Attempt(values, script, recollected)
      invariant forall j :: 0 <= j < recollected ==> !Complete(Attempt(values, script, j), parse)
      decreases |script| - recollected
    {
      var dataList := ListUserData(current, parse);
      if dataList.Success? && |dataList.value| >= |UserStates| {
        return Some(dataList.value), recollected;
      }
      if recollected == |script| {
        return None, recollected;
      }
      current := script[recollected];
      recollected := recollected + 1;
    }
  }
}
