/**
 * The join-parameter parser of the admin `join` command and of the plumbing
 * `!purple bridge` command: it maps the positional words of a command onto
 * the required chat parameters of a protocol, reads trailing `name=value`
 * words as optional parameters, and answers a bare protocol name with help.
 */
module ChatParams {
  import opened Wrappers
  import opened Text

  /** One parameter a protocol needs to join a chat. */
  datatype ChatParam = ChatParam(identifier: string, labelText: string, required: bool)

  /** A join-property set; a `None` value is a key bound to JavaScript's `undefined`. */
  type JoinProps = map<string, Option<string>>

  /** The reserved identifier that users never have to supply. */
  const HandleIdentifier: string := "handle"

  datatype ParamError =
    | IncorrectParameterCount   // "Incorrect number of parameters given"
    | OptionalWrongFormat       // "Optional parameter in the wrong format."

  datatype JoinOutcome =
    | Help(required: seq<string>, optional: seq<string>)   // help notice sent, `null` returned
    | ParamSet(props: JoinProps)
    | Failed(error: ParamError)

  /** `args.slice(n)`. */
  function Drop(args: seq<string>, n: nat): (r: seq<string>)
    ensures |r| == if n <= |args| then |args| - n else 0
    ensures forall i :: 0 <= i < |r| ==> r[i] == args[n + i]
  {
    if n <= |args| then args[n..] else []
  }

  /** `argsParams[i]`, undefined past the end. */
  function At(args: seq<string>, i: nat): Option<string> {
    if i < |args| then Some(args[i]) else None
  }

  // ---------------------------------------------------------------- help

  /** The label as the help shows it: one leading `_` and one trailing `:` removed. */
  function NormalizeLabel(text: string): string {
    var a := if StartsWith(text, "_") then text[1..] else text;
    if EndsWith(a, ":") then a[..|a| - 1] else a
  }

  function WithNormalizedLabel(p: ChatParam): ChatParam {
    p.(labelText := NormalizeLabel(p.labelText))
  }

  /** The parameter list after the help branch has rewritten every label in place. */
  function Normalized(ps: seq<ChatParam>): (r: seq<ChatParam>)
    ensures |r| == |ps| && forall i :: 0 <= i < |ps| ==> r[i] == WithNormalizedLabel(ps[i])
  {
    seq(|ps|, i requires 0 <= i < |ps| => WithNormalizedLabel(ps[i]))
  }

  /** The labels listed as required, in parameter order. */
  function RequiredLabels(ps: seq<ChatParam>): seq<string> {
    if ps == [] then []
    else
      var p := ps[|ps| - 1];
      RequiredLabels(ps[..|ps| - 1]) + (if p.required then [NormalizeLabel(p.labelText)] else [])
  }

  /** The identifiers listed as optional `name=value` words, in parameter order. */
  function OptionalIdentifiers(ps: seq<ChatParam>): seq<string> {
    if ps == [] then []
    else
      var p := ps[|ps| - 1];
      OptionalIdentifiers(ps[..|ps| - 1]) + (if p.required then [] else [p.identifier])
  }

  /**
   * The help gives one entry per parameter: each required one by its
   * label, each optional one by its identifier (parameters that share a
   * label or an identifier each still get their own entry).
   */
  lemma {:induction false} HelpListsEveryParameter(ps: seq<ChatParam>)
    ensures |RequiredLabels(ps)| + |OptionalIdentifiers(ps)| == |ps|
    ensures forall i :: 0 <= i < |ps| && ps[i].required ==> NormalizeLabel(ps[i].labelText) in RequiredLabels(ps)
    ensures forall i :: 0 <= i < |ps| && !ps[i].required ==> ps[i].identifier in OptionalIdentifiers(ps)
  {
    if ps != [] {
      var init := ps[..|ps| - 1];
      HelpListsEveryParameter(init);
      forall i | 0 <= i < |ps| - 1
        ensures ps[i] == init[i]
      {
      }
    }
  }

  /**
   * The help branch: rewrites each parameter's label in place and collects
   * the required labels and the optional identifiers.
   */
  method ShowHelp(params: array<ChatParam>) returns (required: seq<string>, optional: seq<string>)
    modifies params
    ensures params[..] == Normalized(old(params[..]))
    ensures required == RequiredLabels(old(params[..]))
    ensures optional == OptionalIdentifiers(old(params[..]))
  {
    ghost var ps := params[..];
    required, optional := [], [];
    var i := 0;
    while i < params.Length
      invariant 0 <= i <= params.Length
      invariant params[..i] == Normalized(ps[..i])
      invariant forall j :: i <= j < params.Length ==> params[j] == ps[j]
      invariant required == RequiredLabels(ps[..i])
      invariant optional == OptionalIdentifiers(ps[..i])
    {
      var param := params[i];
      var shown := NormalizeLabel(param.labelText);
      params[i] := param.(labelText := shown);
      if param.required {
        required := required + [shown];
      } else {
        optional := optional + [param.identifier];
      }
      assert ps[..i + 1][..i] == ps[..i];
      i := i + 1;
    }
    assert ps[..i] == ps;
  }

  // ---------------------------------------------------------- positional

  /** `params.filter((p) => p.required)`. */
  function RequiredOf(ps: seq<ChatParam>): (req: seq<ChatParam>)
    ensures |req| <= |ps|
    ensures forall p :: p in req <==> p in ps && p.required
  {
    if ps == [] then []
    else RequiredOf(ps[..|ps| - 1]) + (if ps[|ps| - 1].required then [ps[|ps| - 1]] else [])
  }

  /** The filter keeps every copy of a required parameter and no copy of an optional one. */
  lemma {:induction false} RequiredOfCounts(ps: seq<ChatParam>)
    ensures forall p :: multiset(RequiredOf(ps))[p] == if p.required then multiset(ps)[p] else 0
  {
    if ps != [] {
      var init, last := ps[..|ps| - 1], ps[|ps| - 1];
      RequiredOfCounts(init);
      assert ps == init + [last];
    }
  }

  /** Filtering a concatenation filters each part. */
  lemma {:induction false} RequiredOfAppend(a: seq<ChatParam>, b: seq<ChatParam>)
    ensures RequiredOf(a + b) == RequiredOf(a) + RequiredOf(b)
    decreases |b|
  {
    if b == [] {
      assert a + b == a;
    } else {
      var init := b[..|b| - 1];
      assert (a + b)[..|a + b| - 1] == a + init;
      assert (a + b)[|a + b| - 1] == b[|b| - 1];
      RequiredOfAppend(a, init);
    }
  }

  /**
   * The parameter set after the `for` loop over the required parameters:
   * parameter `i` takes positional argument `i`, except that a `handle`
   * parameter takes no entry (its argument is skipped, not shifted).
   */
  function Positional(req: seq<ChatParam>, argsParams: seq<string>): JoinProps {
    if req == [] then map[]
    else
      var m := Positional(req[..|req| - 1], argsParams);
      var p := req[|req| - 1];
      if p.identifier == HandleIdentifier then m else m[p.identifier := At(argsParams, |req| - 1)]
  }

  /** The identifiers the positional loop enters: every required one but `handle`. */
  function PositionalIds(req: seq<ChatParam>): set<string> {
    set i | 0 <= i < |req| && req[i].identifier != HandleIdentifier :: req[i].identifier
  }

  lemma {:induction false} PositionalKeys(req: seq<ChatParam>, argsParams: seq<string>)
    ensures Positional(req, argsParams).Keys == PositionalIds(req)
  {
    if req != [] {
      var init := req[..|req| - 1];
      PositionalKeys(init, argsParams);
      var last := req[|req| - 1];
      assert forall i :: 0 <= i < |init| ==> init[i] == req[i];
      if last.identifier == HandleIdentifier {
        assert PositionalIds(req) == PositionalIds(init);
      } else {
        assert PositionalIds(req) == PositionalIds(init) + {last.identifier};
      }
    }
  }

  /**
   * Required parameter `i` (not `handle`, not overridden by a later parameter
   * with the same identifier) holds positional argument `i`.
   */
  lemma {:induction false} PositionalValue(req: seq<ChatParam>, argsParams: seq<string>, i: nat)
    requires i < |req| && req[i].identifier != HandleIdentifier
    requires forall j :: i < j < |req| ==> req[j].identifier != req[i].identifier
    ensures req[i].identifier in Positional(req, argsParams)
    ensures Positional(req, argsParams)[req[i].identifier] == At(argsParams, i)
  {
    if i < |req| - 1 {
      PositionalValue(req[..|req| - 1], argsParams, i);
    }
  }

  /** The positional loop, building the parameter set entry by entry. */
  method AssignPositional(req: seq<ChatParam>, argsParams: seq<string>) returns (paramSet: JoinProps)
    ensures paramSet == Positional(req, argsParams)
  {
    paramSet := map[];
    var i := 0;
    while i < |req|
      invariant 0 <= i <= |req|
      invariant paramSet == Positional(req[..i], argsParams)
    {
      var param := req[i];
      assert req[..i + 1][..i] == req[..i];
      if param.identifier != HandleIdentifier {
        paramSet := paramSet[param.identifier := At(argsParams, i)];
      }
      i := i + 1;
    }
    assert req[..i] == req;
  }

  // ----------------------------------------------------------- optionals

  /** The text before the first `=` of an optional word. */
  function OptionalKey(token: string): string {
    Split(token, '=')[0]
  }

  /** The text between the first and the second `=` of an optional word. */
  function OptionalValue(token: string): string
    requires '=' in token
  {
    Split(token, '=')[1]
  }

  /** An optional word reads `key=value…`: the key and the value hold no `=`. */
  lemma OptionalWordParts(token: string)
    requires '=' in token
    ensures var k, v := OptionalKey(token), OptionalValue(token);
      && '=' !in k && '=' !in v
      && |k| < |token| && token[..|k|] == k && token[|k|] == '='
      && v <= token[|k| + 1..]
      && (|k| + 1 + |v| == |token| || token[|k| + 1 + |v|] == '=')
  {
    var i := IndexOf(token, '=');
    var parts := Split(token, '=');
    assert parts == [token[..i]] + Split(token[i + 1..], '=');
    assert parts[1] == Split(token[i + 1..], '=')[0];
    SplitPartsAreFree(token, '=');
  }

  /**
   * The `forEach` over the optional words: each must contain `=`, the first
   * that does not aborts the whole command; a later word overrides an
   * earlier one with the same key, and may override a positional entry.
   */
  function ApplyOptionals(m: JoinProps, tokens: seq<string>): Result<JoinProps, ParamError>
    decreases |tokens|
  {
    if tokens == [] then Ok(m)
    else
      var split := Split(tokens[0], '=');
      if |split| == 1 then Err(OptionalWrongFormat)
      else ApplyOptionals(m[split[0] := Some(split[1])], tokens[1..])
  }

  lemma {:induction false} ApplyOptionalsSucceeds(m: JoinProps, tokens: seq<string>)
    ensures ApplyOptionals(m, tokens).Ok? <==> forall i :: 0 <= i < |tokens| ==> '=' in tokens[i]
    ensures ApplyOptionals(m, tokens).Err? ==> ApplyOptionals(m, tokens).error == OptionalWrongFormat
    decreases |tokens|
  {
    if tokens != [] && '=' in tokens[0] {
      ApplyOptionalsSucceeds(m[OptionalKey(tokens[0]) := Some(OptionalValue(tokens[0]))], tokens[1..]);
      assert forall i :: 1 <= i < |tokens| ==> tokens[i] == tokens[1..][i - 1];
    }
  }

  /** After a successful pass the keys are those of `m` plus every word's key. */
  lemma {:induction false} ApplyOptionalsKeys(m: JoinProps, tokens: seq<string>, k: string)
    requires ApplyOptionals(m, tokens).Ok?
    ensures k in ApplyOptionals(m, tokens).value <==>
              k in m || exists i :: 0 <= i < |tokens| && OptionalKey(tokens[i]) == k
    decreases |tokens|
  {
    if tokens != [] {
      var t := tokens[0];
      var m' := m[OptionalKey(t) := Some(OptionalValue(t))];
      ApplyOptionalsKeys(m', tokens[1..], k);
      if exists i :: 0 <= i < |tokens| && OptionalKey(tokens[i]) == k {
        var i :| 0 <= i < |tokens| && OptionalKey(tokens[i]) == k;
        if i > 0 {
          assert OptionalKey(tokens[1..][i - 1]) == k;
        }
      }
      if exists i :: 0 <= i < |tokens[1..]| && OptionalKey(tokens[1..][i]) == k {
        var i :| 0 <= i < |tokens[1..]| && OptionalKey(tokens[1..][i]) == k;
        assert OptionalKey(tokens[i + 1]) == k;
      }
    }
  }

  /** A key no word binds keeps its value from `m`. */
  lemma {:induction false} ApplyOptionalsKeepsUnboundKeys(m: JoinProps, tokens: seq<string>, k: string)
    requires ApplyOptionals(m, tokens).Ok?
    requires k in m && forall i :: 0 <= i < |tokens| ==> OptionalKey(tokens[i]) != k
    ensures k in ApplyOptionals(m, tokens).value && ApplyOptionals(m, tokens).value[k] == m[k]
    decreases |tokens|
  {
    if tokens != [] {
      var t := tokens[0];
      var m' := m[OptionalKey(t) := Some(OptionalValue(t))];
      assert OptionalKey(t) != k;
      assert forall i :: 0 <= i < |tokens[1..]| ==> tokens[1..][i] == tokens[i + 1];
      ApplyOptionalsKeepsUnboundKeys(m', tokens[1..], k);
    }
  }

  /** A key bound by a word takes the value of the LAST word with that key. */
  lemma {:induction false} ApplyOptionalsLastWordWins(m: JoinProps, tokens: seq<string>, k: string, i: nat)
    requires ApplyOptionals(m, tokens).Ok?
    requires i < |tokens| && OptionalKey(tokens[i]) == k
    requires forall j :: i < j < |tokens| ==> OptionalKey(tokens[j]) != k
    ensures '=' in tokens[i]
    ensures k in ApplyOptionals(m, tokens).value && ApplyOptionals(m, tokens).value[k] == Some(OptionalValue(tokens[i]))
    decreases |tokens|
  {
    var t := tokens[0];
    assert '=' in t;
    var m' := m[OptionalKey(t) := Some(OptionalValue(t))];
    assert forall j :: 0 <= j < |tokens[1..]| ==> tokens[1..][j] == tokens[j + 1];
    if i > 0 {
      ApplyOptionalsLastWordWins(m', tokens[1..], k, i - 1);
    } else {
      ApplyOptionalsKeepsUnboundKeys(m', tokens[1..], k);
    }
  }

  /** The optional loop, applying the words left to right. */
  method AddOptionals(paramSet: JoinProps, tokens: seq<string>) returns (r: Result<JoinProps, ParamError>)
    ensures r == ApplyOptionals(paramSet, tokens)
  {
    var m := paramSet;
    var i := 0;
    while i < |tokens|
      invariant 0 <= i <= |tokens|
      invariant ApplyOptionals(m, tokens[i..]) == ApplyOptionals(paramSet, tokens)
    {
      assert tokens[i..][1..] == tokens[i + 1..];
      var split := Split(tokens[i], '=');
      if |split| == 1 {
        return Err(OptionalWrongFormat);
      }
      m := m[split[0] := Some(split[1])];
      i := i + 1;
    }
    r := Ok(m);
  }

  // ---------------------------------------------------------- the parser

  /**
   * `getJoinParametersForCommand(acct, args, …)` on the protocol's parameter
   * list `params`, where `args[0]` names the protocol.
   */
  function JoinParameters(params: seq<ChatParam>, args: seq<string>): JoinOutcome {
    if |args| == 1 then Help(RequiredLabels(params), OptionalIdentifiers(params))
    else
      var argsParams := Drop(args, 1);
      var paramSet := Positional(RequiredOf(params), argsParams);
      var requiredCount := |paramSet|;
      if |argsParams| < requiredCount then Failed(IncorrectParameterCount)
      else
        match ApplyOptionals(paramSet, Drop(args, 1 + requiredCount))
        case Ok(props) => ParamSet(props)
        case Err(e) => Failed(e)
  }

  /**
   * The parser itself, on the parameter objects the account hands out: the
   * help branch rewrites their labels in place, the other branches leave
   * them alone.
   */
  method GetJoinParametersForCommand(params: array<ChatParam>, args: seq<string>) returns (r: JoinOutcome)
    modifies params
    ensures r == JoinParameters(old(params[..]), args)
    ensures params[..] == if |args| == 1 then Normalized(old(params[..])) else old(params[..])
  {
    if |args| == 1 {
      var required, optional := ShowHelp(params);
      return Help(required, optional);
    }
    var requiredParams := RequiredOf(params[..]);
    var argsParams := Drop(args, 1);
    var paramSet := AssignPositional(requiredParams, argsParams);
    var requiredCount := |paramSet|;
    if |argsParams| < requiredCount {
      return Failed(IncorrectParameterCount);
    }
    var optionals := AddOptionals(paramSet, Drop(args, 1 + requiredCount));
    match optionals
    case Ok(props) => r := ParamSet(props);
    case Err(e) => r := Failed(e);
  }

  // ---------------------------------------------------------- properties

  /** A lone protocol name yields help and never a parameter set. */
  lemma HelpBranch(params: seq<ChatParam>, protocol: string)
    ensures JoinParameters(params, [protocol]).Help?
    ensures !JoinParameters(params, [protocol]).ParamSet?
    ensures JoinParameters(params, [protocol]).required == RequiredLabels(params)
    ensures forall i :: 0 <= i < |params| && params[i].required ==>
      NormalizeLabel(params[i].labelText) in JoinParameters(params, [protocol]).required
    ensures forall i :: 0 <= i < |params| && !params[i].required ==>
      params[i].identifier in JoinParameters(params, [protocol]).optional
  {
    HelpListsEveryParameter(params);
  }

  /**
   * Too few words: the command fails exactly when fewer positional words are
   * given than there are distinct non-`handle` required identifiers.
   */
  lemma TooFewArguments(params: seq<ChatParam>, args: seq<string>)
    requires |args| != 1
    ensures JoinParameters(params, args) == Failed(IncorrectParameterCount)
        <==> |Drop(args, 1)| < |PositionalIds(RequiredOf(params))|
  {
    PositionalKeys(RequiredOf(params), Drop(args, 1));
    var paramSet := Positional(RequiredOf(params), Drop(args, 1));
    assert |paramSet| == |paramSet.Keys|;
    var requiredCount := |paramSet|;
    if |Drop(args, 1)| >= requiredCount {
      ApplyOptionalsSucceeds(paramSet, Drop(args, 1 + requiredCount));
    }
  }

  lemma {:induction false} DistinctIdsCount(req: seq<ChatParam>)
    requires forall i :: 0 <= i < |req| ==> req[i].identifier != HandleIdentifier
    requires forall i, j :: 0 <= i < j < |req| ==> req[i].identifier != req[j].identifier
    ensures |PositionalIds(req)| == |req|
  {
    if req != [] {
      var init := req[..|req| - 1];
      DistinctIdsCount(init);
      assert forall i :: 0 <= i < |init| ==> init[i] == req[i];
      assert PositionalIds(req) == PositionalIds(init) + {req[|req| - 1].identifier};
    }
  }

  /**
   * The intended use: with distinct required identifiers, none of them
   * `handle`, and trailing words that are all `name=value` with fresh names,
   * required parameter `i` gets word `i + 1` and every optional its value.
   */
  lemma WellFormedCommand(params: seq<ChatParam>, args: seq<string>)
    requires |args| != 1
    requires var req := RequiredOf(params);
      && (forall i :: 0 <= i < |req| ==> req[i].identifier != HandleIdentifier)
      && (forall i, j :: 0 <= i < j < |req| ==> req[i].identifier != req[j].identifier)
      && 1 + |req| <= |args|
      && (forall t :: t in args[1 + |req|..] ==> '=' in t && OptionalKey(t) !in PositionalIds(req))
    ensures JoinParameters(params, args).ParamSet?
    ensures var req := RequiredOf(params);
      forall i :: 0 <= i < |req| ==>
        req[i].identifier in JoinParameters(params, args).props
        && JoinParameters(params, args).props[req[i].identifier] == Some(args[1 + i])
  {
    var req := RequiredOf(params);
    var argsParams := Drop(args, 1);
    var paramSet := Positional(req, argsParams);
    PositionalKeys(req, argsParams);
    DistinctIdsCount(req);
    assert |paramSet| == |req|;
    var tokens := Drop(args, 1 + |req|);
    assert forall i :: 0 <= i < |tokens| ==> tokens[i] in args[1 + |req|..];
    assert forall i :: 0 <= i < |tokens| ==> '=' in tokens[i];
    assert forall j :: 0 <= j < |tokens| ==> OptionalKey(tokens[j]) !in PositionalIds(req);
    ApplyOptionalsSucceeds(paramSet, tokens);
    var props := ApplyOptionals(paramSet, tokens).value;
    assert JoinParameters(params, args) == ParamSet(props);
    forall i | 0 <= i < |req|
      ensures req[i].identifier in props && props[req[i].identifier] == Some(args[1 + i])
    {
      PositionalSurvivesOptionals(req, argsParams, tokens, i);
    }
  }

  /** A positional entry whose key no optional word names keeps its word. */
  lemma PositionalSurvivesOptionals(req: seq<ChatParam>, argsParams: seq<string>, tokens: seq<string>, i: nat)
    requires i < |req| <= |argsParams|
    requires req[i].identifier != HandleIdentifier
    requires forall j :: i < j < |req| ==> req[j].identifier != req[i].identifier
    requires ApplyOptionals(Positional(req, argsParams), tokens).Ok?
    requires forall j :: 0 <= j < |tokens| ==> OptionalKey(tokens[j]) !in PositionalIds(req)
    ensures var props := ApplyOptionals(Positional(req, argsParams), tokens).value;
      req[i].identifier in props && props[req[i].identifier] == Some(argsParams[i])
  {
    var k := req[i].identifier;
    PositionalValue(req, argsParams, i);
    assert k in PositionalIds(req);
    ApplyOptionalsKeepsUnboundKeys(Positional(req, argsParams), tokens, k);
  }

  /** A trailing required `handle` is skipped: it takes no entry and no word. */
  lemma TrailingHandleExample()
    ensures JoinParameters(
      [ChatParam("room", "_Room:", true), ChatParam(HandleIdentifier, "Handle", true)],
      ["irc", "#chan"]) == ParamSet(map["room" := Some("#chan")])
  {
    var params := [ChatParam("room", "_Room:", true), ChatParam(HandleIdentifier, "Handle", true)];
    assert RequiredOf(params) == params by {
      assert params[..1][..0] == [];
    }
    assert params[..1] == [params[0]] && params[..1][..0] == [];
    assert Positional(params[..1][..0], ["#chan"]) == map[];
    assert params[..1][0].identifier == "room" != HandleIdentifier;
    var first := Positional(params[..1], ["#chan"]);
    assert first == map[][params[0].identifier := At(["#chan"], 0)];
    var paramSet := Positional(params, ["#chan"]);
    assert paramSet == first;
    assert paramSet == map["room" := Some("#chan")];
    assert |paramSet| == 1;
  }

  /**
   * A leading required `handle` is skipped without shifting the words: the
   * next required parameter reads the second word, which is `undefined`
   * when the user leaves the handle out.
   */
  lemma LeadingHandleExample()
    ensures JoinParameters(
      [ChatParam(HandleIdentifier, "Handle", true), ChatParam("room", "_Room:", true)],
      ["xmpp", "#chan"]) == ParamSet(map["room" := None])
  {
    var params := [ChatParam(HandleIdentifier, "Handle", true), ChatParam("room", "_Room:", true)];
    assert RequiredOf(params) == params by {
      assert params[..1][..0] == [];
    }
    assert params[..1] == [params[0]] && params[..1][..0] == [];
    assert Positional(params[..1][..0], ["#chan"]) == map[];
    assert Positional(params[..1], ["#chan"]) == map[];
    var paramSet := Positional(params, ["#chan"]);
    assert paramSet == map["room" := At(["#chan"], 1)];
    assert paramSet == map["room" := None];
    assert |paramSet| == 1;
  }
}
