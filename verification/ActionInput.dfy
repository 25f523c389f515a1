/**
 The normal form of an action's input, which its token is bound to: the token and intent keys are
 dropped at every depth, and a command line becomes a command with its arguments.
 */
module ActionInput {
  import opened Json
  import opened Text
  import opened Wrappers

  /** The bytes of an input: only white space, not JSON, or a document. */
  datatype Input = Blank | Malformed | Document(value: Json)

  datatype InputError = NotJson

  predicate Hidden(key: string) {
    key == "actionToken" || key == "intent"
  }

  function NormalizeValue(v: Json): Json
    decreases v
  {
    match v
    case Obj(fields) => Obj(map k | k in fields && !Hidden(k) :: NormalizeValue(fields[k]))
    case Arr(items) => Arr(seq(|items|, i requires 0 <= i < |items| => NormalizeValue(items[i])))
    case _ => v
  }

  function Lookup(fields: map<string, Json>, key: string): Json {
    if key in fields then fields[key] else Null
  }

  function StringValue(v: Json): string {
    if v.Str? then TrimSpace(v.s) else ""
  }

  function NonBlank(items: seq<Json>): (r: seq<string>)
    ensures forall s :: s in r ==> s != ""
  {
    if items == [] then []
    else
      var s := StringValue(items[0]);
      if s == "" then NonBlank(items[1..]) else [s] + NonBlank(items[1..])
  }

  /** The arguments, or none at all when the value is not a list. */
  function StringArray(v: Json): Option<seq<string>> {
    if v.Arr? then Some(NonBlank(v.items)) else None
  }

  function ArgsValue(args: Option<seq<string>>): Json {
    match args
    case Some(a) => Arr(seq(|a|, i requires 0 <= i < |a| => Str(a[i])))
    case None => Null
  }

  datatype Call = Call(command: string, args: Option<seq<string>>)

  /** The command and arguments of an object; a command line counts only without a command. */
  function CallOf(fields: map<string, Json>): Call {
    var command := StringValue(Lookup(fields, "command"));
    var words := Fields(StringValue(Lookup(fields, "cmd")));
    if command == "" && |words| > 0 then Call(words[0], Some(words[1..]))
    else Call(command, StringArray(Lookup(fields, "args")))
  }

  predicate CallKey(key: string) {
    key == "cmd" || key == "command" || key == "args"
  }

  function Others(fields: map<string, Json>): map<string, Json> {
    map k | k in fields && !CallKey(k) && !Hidden(k) :: fields[k]
  }

  function NormalizeCommandObject(fields: map<string, Json>): map<string, Json> {
    var call := CallOf(fields);
    if call.command == "" then fields
    else Others(fields)["command" := Str(call.command)]["args" := ArgsValue(call.args)]
  }

  function NormalizeDocument(v: Json): Json {
    var value := NormalizeValue(v);
    if value.Obj? then Obj(NormalizeCommandObject(value.fields)) else value
  }

  function NormalizeInput(input: Input): Result<Json, InputError> {
    match input
    case Blank => Success(NormalizeDocument(Obj(map[])))
    case Malformed => Failure(NotJson)
    case Document(v) => Success(NormalizeDocument(v))
  }

  // ---------------------------------------------------------------- the loops

  method NormalizeTree(v: Json) returns (r: Json)
    ensures r == NormalizeValue(v)
    decreases v
  {
    match v
    case Obj(fields) =>
      var out: map<string, Json> := map[];
      var left := fields.Keys;
      while left != {}
        invariant left <= fields.Keys
        invariant out.Keys == set k | k in fields.Keys - left && !Hidden(k)
        invariant forall k :: k in out ==> out[k] == NormalizeValue(fields[k])
      {
        var key :| key in left;
        left := left - {key};
        if !Hidden(key) {
          var item := NormalizeTree(fields[key]);
          out := out[key := item];
        }
      }
      r := Obj(out);
      assert out == NormalizeValue(v).fields;
    case Arr(items) =>
      var out: seq<Json> := [];
      for i := 0 to |items|
        invariant |out| == i && forall j :: 0 <= j < i ==> out[j] == NormalizeValue(items[j])
      {
        var item := NormalizeTree(items[i]);
        out := out + [item];
      }
      r := Arr(out);
    case _ =>
      r := v;
  }

  method CollectStrings(items: seq<Json>) returns (out: seq<string>)
    ensures out == NonBlank(items)
  {
    out := [];
    var i := 0;
    while i < |items|
      invariant i <= |items| && out + NonBlank(items[i..]) == NonBlank(items)
    {
      var s := StringValue(items[i]);
      ghost var before, rest := out, NonBlank(items[i..]);
      if s != "" {
        out := out + [s];
      }
      i := i + 1;
      assert items[i - 1..][1..] == items[i..];
      assert before + rest == out + NonBlank(items[i..]);
    }
  }

  method RewriteCommand(fields: map<string, Json>) returns (out: map<string, Json>)
    ensures out == NormalizeCommandObject(fields)
  {
    var command := StringValue(Lookup(fields, "command"));
    var args := None;
    if Lookup(fields, "args").Arr? {
      var list := CollectStrings(Lookup(fields, "args").items);
      args := Some(list);
    }
    if command == "" {
      var words := Fields(StringValue(Lookup(fields, "cmd")));
      if |words| > 0 {
        command, args := words[0], Some(words[1..]);
      }
    }
    if command == "" {
      return fields;
    }
    out := map[];
    var left := fields.Keys;
    while left != {}
      invariant left <= fields.Keys
      invariant out.Keys == set k | k in fields.Keys - left && !CallKey(k) && !Hidden(k)
      invariant forall k :: k in out ==> out[k] == fields[k]
    {
      var key :| key in left;
      left := left - {key};
      if !CallKey(key) && !Hidden(key) {
        out := out[key := fields[key]];
      }
    }
    assert out == Others(fields);
    out := out["command" := Str(command)]["args" := ArgsValue(args)];
  }

  // ---------------------------------------------------------------- the token keys do not matter

  /** The trees differ at most in token and intent keys, at any depth. */
  predicate SameButForTokens(v: Json, w: Json)
    decreases v
  {
    match v
    case Obj(fields) =>
      && w.Obj?
      && (forall k :: k in w.fields && !Hidden(k) ==> k in fields)
      && forall k :: k in fields && !Hidden(k) ==> k in w.fields && SameButForTokens(fields[k], w.fields[k])
    case Arr(items) =>
      w.Arr? && |items| == |w.items| && forall i :: 0 <= i < |items| ==> SameButForTokens(items[i], w.items[i])
    case _ => v == w
  }

  lemma {:induction false} NormalizeIgnoresTokens(v: Json, w: Json)
    ensures NormalizeValue(v) == NormalizeValue(w) <==> SameButForTokens(v, w)
    decreases v
  {
    match v
    case Obj(fields) =>
      if w.Obj? {
        FieldsIgnoreTokens(fields, w.fields);
      }
    case Arr(items) =>
      if w.Arr? {
        ItemsIgnoreTokens(items, w.items);
      }
    case _ =>
  }

  lemma {:induction false} FieldsIgnoreTokens(fields: map<string, Json>, others: map<string, Json>)
    ensures NormalizeValue(Obj(fields)) == NormalizeValue(Obj(others)) <==> SameButForTokens(Obj(fields), Obj(others))
    decreases Obj(fields), 0
  {
    var a, b := NormalizeValue(Obj(fields)).fields, NormalizeValue(Obj(others)).fields;
    forall k | k in fields && k in others
      ensures NormalizeValue(fields[k]) == NormalizeValue(others[k]) <==> SameButForTokens(fields[k], others[k])
    {
      NormalizeIgnoresTokens(fields[k], others[k]);
    }
    if SameButForTokens(Obj(fields), Obj(others)) {
      assert a == b;
    }
    if a == b {
      forall k | k in others && !Hidden(k) ensures k in fields {
        assert k in b;
      }
      forall k | k in fields && !Hidden(k) ensures k in others && SameButForTokens(fields[k], others[k]) {
        assert k in a;
        assert a[k] == b[k];
      }
    }
  }

  lemma {:induction false} ItemsIgnoreTokens(items: seq<Json>, others: seq<Json>)
    ensures NormalizeValue(Arr(items)) == NormalizeValue(Arr(others)) <==> SameButForTokens(Arr(items), Arr(others))
    decreases Arr(items), 0
  {
    var a, b := NormalizeValue(Arr(items)).items, NormalizeValue(Arr(others)).items;
    if |items| == |others| {
      forall i | 0 <= i < |items|
        ensures a[i] == b[i] <==> SameButForTokens(items[i], others[i])
      {
        NormalizeIgnoresTokens(items[i], others[i]);
      }
      if SameButForTokens(Arr(items), Arr(others)) {
        assert a == b;
      }
    }
  }

  /** Inputs that differ only in token and intent keys, at any depth, have one normal form. */
  lemma TokensDoNotMatter(v: Json, w: Json)
    requires SameButForTokens(v, w)
    ensures NormalizeInput(Document(v)) == NormalizeInput(Document(w))
  {
    NormalizeIgnoresTokens(v, w);
  }

  // ---------------------------------------------------------------- normal forms are fixed points

  /** No token or intent key at any depth. */
  predicate TokenFree(v: Json)
    decreases v
  {
    match v
    case Obj(fields) => forall k :: k in fields ==> !Hidden(k) && TokenFree(fields[k])
    case Arr(items) => forall i :: 0 <= i < |items| ==> TokenFree(items[i])
    case _ => true
  }

  lemma {:induction false} NormalizeRemovesTokens(v: Json)
    ensures TokenFree(NormalizeValue(v))
    decreases v
  {
    match v
    case Obj(fields) =>
      forall k | k in fields && !Hidden(k) ensures TokenFree(NormalizeValue(fields[k])) {
        NormalizeRemovesTokens(fields[k]);
      }
    case Arr(items) =>
      forall i | 0 <= i < |items| ensures TokenFree(NormalizeValue(items[i])) {
        NormalizeRemovesTokens(items[i]);
      }
    case _ =>
  }

  lemma {:induction false} TokenFreeIsKept(v: Json)
    requires TokenFree(v)
    ensures NormalizeValue(v) == v
    decreases v
  {
    match v
    case Obj(fields) =>
      forall k | k in fields ensures NormalizeValue(fields[k]) == fields[k] {
        TokenFreeIsKept(fields[k]);
      }
      assert NormalizeValue(v).fields == fields;
    case Arr(items) =>
      forall i | 0 <= i < |items| ensures NormalizeValue(items[i]) == items[i] {
        TokenFreeIsKept(items[i]);
      }
    case _ =>
  }

  predicate Usable(args: seq<string>) {
    forall s :: s in args ==> s != "" && Trimmed(s)
  }

  lemma {:induction false} NonBlankIsUsable(items: seq<Json>)
    ensures Usable(NonBlank(items))
  {
    if items != [] {
      NonBlankIsUsable(items[1..]);
      if items[0].Str? {
        TrimSpaceTrims(items[0].s);
      }
    }
  }

  lemma {:induction false} UsableIsKept(args: seq<string>)
    requires Usable(args)
    ensures StringArray(ArgsValue(Some(args))) == Some(args)
  {
    if args != [] {
      UsableIsKept(args[1..]);
      TrimSpaceTrims(args[0]);
      var items := ArgsValue(Some(args)).items;
      assert items[1..] == ArgsValue(Some(args[1..])).items;
      assert args == [args[0]] + args[1..];
    }
  }

  lemma WordsAreUsable(words: seq<string>)
    requires AreWords(words)
    ensures Usable(words)
  {
  }

  /** A command never ends in white space, and no argument is blank. */
  lemma CallIsClean(fields: map<string, Json>)
    ensures var call := CallOf(fields);
      Trimmed(call.command) && (call.args.Some? ==> Usable(call.args.value))
  {
    var words := Fields(StringValue(Lookup(fields, "cmd")));
    WordsAreUsable(words);
    if Lookup(fields, "args").Arr? {
      NonBlankIsUsable(Lookup(fields, "args").items);
    }
    if Lookup(fields, "command").Str? {
      TrimSpaceTrims(Lookup(fields, "command").s);
    }
  }

  /** An object that spells out a clean call is read as that call. */
  lemma CleanCallIsRead(fields: map<string, Json>, call: Call)
    requires Lookup(fields, "command") == Str(call.command) && Lookup(fields, "args") == ArgsValue(call.args)
    requires call.command != "" && Trimmed(call.command) && (call.args.Some? ==> Usable(call.args.value))
    ensures CallOf(fields) == call
  {
    TrimSpaceTrims(call.command);
    if call.args.Some? {
      UsableIsKept(call.args.value);
    }
  }

  /** The rewritten object still carries the call and the other keys, and nothing else. */
  lemma RewriteCarriesTheCall(fields: map<string, Json>)
    requires CallOf(fields).command != ""
    ensures CallOf(NormalizeCommandObject(fields)) == CallOf(fields)
    ensures Others(NormalizeCommandObject(fields)) == Others(fields)
  {
    CallIsClean(fields);
    CleanCallIsRead(NormalizeCommandObject(fields), CallOf(fields));
  }

  /** Objects with a command are rewritten alike exactly when call and other keys agree. */
  lemma SameFormSameCall(a: map<string, Json>, b: map<string, Json>)
    requires CallOf(a).command != "" && CallOf(b).command != ""
    ensures NormalizeCommandObject(a) == NormalizeCommandObject(b) <==> CallOf(a) == CallOf(b) && Others(a) == Others(b)
  {
    RewriteCarriesTheCall(a);
    RewriteCarriesTheCall(b);
  }

  lemma RewriteIsStable(fields: map<string, Json>)
    ensures NormalizeCommandObject(NormalizeCommandObject(fields)) == NormalizeCommandObject(fields)
  {
    if CallOf(fields).command != "" {
      RewriteCarriesTheCall(fields);
      SameFormSameCall(NormalizeCommandObject(fields), fields);
    }
  }

  lemma RewriteKeepsTokenFree(fields: map<string, Json>)
    requires TokenFree(Obj(fields))
    ensures TokenFree(Obj(NormalizeCommandObject(fields)))
  {
    var call := CallOf(fields);
    assert TokenFree(ArgsValue(call.args));
  }

  /** Normalising a normal form again gives it back. */
  lemma NormalFormIsFixed(input: Input)
    ensures NormalizeInput(input).Success? ==>
        NormalizeInput(Document(NormalizeInput(input).value)) == NormalizeInput(input)
  {
    if input != Malformed {
      var v := if input.Blank? then Obj(map[]) else input.value;
      NormalizeRemovesTokens(v);
      var value := NormalizeValue(v);
      TokenFreeIsKept(value);
      if value.Obj? {
        RewriteKeepsTokenFree(value.fields);
        TokenFreeIsKept(Obj(NormalizeCommandObject(value.fields)));
        RewriteIsStable(value.fields);
      }
    }
  }

  // ---------------------------------------------------------------- a command line is its words

  /** The object with its command line spelled out as a command and arguments. */
  function SpelledOut(fields: map<string, Json>): map<string, Json>
    requires |Fields(StringValue(Lookup(fields, "cmd")))| > 0
  {
    var words := Fields(StringValue(Lookup(fields, "cmd")));
    (map k | k in fields && k != "cmd" :: fields[k])["command" := Str(words[0])]["args" := ArgsValue(Some(words[1..]))]
  }

  lemma NormalizedField(fields: map<string, Json>, key: string)
    requires !Hidden(key)
    ensures Lookup(NormalizeValue(Obj(fields)).fields, key) == NormalizeValue(Lookup(fields, key))
  {
  }

  lemma CommandLineIsRead(fields: map<string, Json>)
    requires StringValue(Lookup(fields, "command")) == "" && |Fields(StringValue(Lookup(fields, "cmd")))| > 0
    ensures var words := Fields(StringValue(Lookup(fields, "cmd")));
      CallOf(NormalizeValue(Obj(fields)).fields) == Call(words[0], Some(words[1..]))
  {
    NormalizedField(fields, "command");
    NormalizedField(fields, "cmd");
  }

  lemma ArgsValueIsKept(args: Option<seq<string>>)
    ensures NormalizeValue(ArgsValue(args)) == ArgsValue(args)
  {
    if args.Some? {
      var items := ArgsValue(args).items;
      assert NormalizeValue(Arr(items)).items == items;
    }
  }

  lemma SpelledOutFields(fields: map<string, Json>)
    requires |Fields(StringValue(Lookup(fields, "cmd")))| > 0
    ensures var words := Fields(StringValue(Lookup(fields, "cmd")));
      Lookup(SpelledOut(fields), "command") == Str(words[0])
      && Lookup(SpelledOut(fields), "args") == ArgsValue(Some(words[1..]))
    ensures Others(SpelledOut(fields)) == Others(fields)
  {
  }

  lemma SpelledOutIsRead(fields: map<string, Json>)
    requires |Fields(StringValue(Lookup(fields, "cmd")))| > 0
    ensures var words := Fields(StringValue(Lookup(fields, "cmd")));
      CallOf(NormalizeValue(Obj(SpelledOut(fields))).fields) == Call(words[0], Some(words[1..]))
  {
    var words := Fields(StringValue(Lookup(fields, "cmd")));
    WordsAreUsable(words);
    ArgsValueIsKept(Some(words[1..]));
    SpelledOutFields(fields);
    NormalizedField(SpelledOut(fields), "command");
    NormalizedField(SpelledOut(fields), "args");
    assert words[0] in words;
    CleanCallIsRead(NormalizeValue(Obj(SpelledOut(fields))).fields, Call(words[0], Some(words[1..])));
  }

  lemma OthersAreNormalizedAlone(fields: map<string, Json>)
    ensures Others(NormalizeValue(Obj(fields)).fields) == NormalizeValue(Obj(Others(fields))).fields
  {
  }

  /** A command line without a usable command means the same as its words spelled out. */
  lemma CommandLineIsItsWords(fields: map<string, Json>)
    requires StringValue(Lookup(fields, "command")) == "" && |Fields(StringValue(Lookup(fields, "cmd")))| > 0
    ensures NormalizeInput(Document(Obj(fields))) == NormalizeInput(Document(Obj(SpelledOut(fields))))
  {
    CommandLineIsRead(fields);
    SpelledOutIsRead(fields);
    SpelledOutFields(fields);
    OthersAreNormalizedAlone(fields);
    OthersAreNormalizedAlone(SpelledOut(fields));
    var words := Fields(StringValue(Lookup(fields, "cmd")));
    assert words[0] in words;
    SameFormSameCall(NormalizeValue(Obj(fields)).fields, NormalizeValue(Obj(SpelledOut(fields))).fields);
  }

  /** Any command and arguments can be given as one line, the words joined by blanks. */
  lemma JoinedWordsAreTheCall(fields: map<string, Json>, words: seq<string>)
    requires StringValue(Lookup(fields, "command")) == "" && words != [] && AreWords(words)
    ensures var line := fields["cmd" := Str(Joined(words))];
      NormalizeInput(Document(Obj(line)))
        == NormalizeInput(Document(Obj((map k | k in line && k != "cmd" :: line[k])
             ["command" := Str(words[0])]["args" := ArgsValue(Some(words[1..]))])))
  {
    FieldsOfJoined(words);
    JoinedIsTrimmed(words);
    TrimSpaceTrims(Joined(words));
    var line := fields["cmd" := Str(Joined(words))];
    assert Lookup(line, "command") == Lookup(fields, "command");
    CommandLineIsItsWords(line);
  }
}
