/**
 * lib/log.js: the log-message filter that hides secrets — each dangerous
 * configuration value in a message is replaced by the name of its key.
 */
module Log {
  import opened Js
  import opened Grouping
  import opened Objects

  /** `config[key]` as `replace` searches for it: the value as text, an
      unset key being `undefined`. */
  function ConfigPattern(config: seq<Prop>, key: string): string {
    match Lookup(config, key)
    case Some(v) => ToStr(v)
    case None => ToStr(Undefined)
  }

  /** The `reduce` over the dangerous keys, in order: each key's value has
      its first occurrence replaced by the key. */
  function ReplaceKeys(message: string, keys: seq<string>, config: seq<Prop>): string
    decreases |keys|
  {
    if keys == [] then message
    else ReplaceKeys(ReplaceFirst(message, ConfigPattern(config, keys[0]), keys[0]), keys[1..], config)
  }

  const NotAString := "TypeError: message.replace is not a function"

  /** `sanitiseDangerousKeys(msg = '')`: an `undefined` message is the
      empty text; a message that is not text cannot be searched, so the
      first `replace` throws, unless there is no key to replace. */
  function SanitiseDangerousKeys(msg: JsValue, keys: seq<string>, config: seq<Prop>): Result<JsValue> {
    var m := if msg == Undefined then Str("") else msg;
    if keys == [] then Ok(m)
    else if m.Str? then Ok(Str(ReplaceKeys(m.s, keys, config)))
    else Err(NotAString)
  }

  /** The info object's `message`, `undefined` when it has none. */
  function MessageOf(info: seq<Prop>): JsValue {
    match Lookup(info, "message")
    case Some(v) => v
    case None => Undefined
  }

  /** `sanitiseMessage`: `{...info, message: sanitiseDangerousKeys(info.message)}`. */
  function SanitiseMessage(info: seq<Prop>, keys: seq<string>, config: seq<Prop>): Result<seq<Prop>> {
    match SanitiseDangerousKeys(MessageOf(info), keys, config)
    case Ok(v) => Ok(Assign(Assign([], info), [Prop("message", v)]))
    case Err(e) => Err(e)
  }

  /** `pat` occurs nowhere in `s`. */
  predicate Absent(s: string, pat: string) {
    forall j :: 0 <= j <= |s| ==> !OccursAt(s, pat, j)
  }

  /** A message in which no dangerous value occurs comes back unchanged. */
  lemma {:induction false} ReplaceKeysUnchanged(message: string, keys: seq<string>, config: seq<Prop>)
    requires forall i :: 0 <= i < |keys| ==> Absent(message, ConfigPattern(config, keys[i]))
    ensures ReplaceKeys(message, keys, config) == message
    decreases |keys|
  {
    if keys != [] {
      ReplaceFirstAbsent(message, ConfigPattern(config, keys[0]), keys[0]);
      assert forall i :: 0 <= i < |keys| - 1 ==> keys[1..][i] == keys[i + 1];
      ReplaceKeysUnchanged(message, keys[1..], config);
    }
  }

  /** The keys are applied in list order: the first list, then the second. */
  lemma {:induction false} ReplaceKeysAppend(message: string, a: seq<string>, b: seq<string>, config: seq<Prop>)
    ensures ReplaceKeys(message, a + b, config) == ReplaceKeys(ReplaceKeys(message, a, config), b, config)
    decreases |a|
  {
    if a == [] {
      assert a + b == b;
    } else {
      assert (a + b)[1..] == a[1..] + b;
      ReplaceKeysAppend(ReplaceFirst(message, ConfigPattern(config, a[0]), a[0]), a[1..], b, config);
    }
  }

  /** A replacement without `$` is inserted as it is. */
  lemma {:induction false} SubstitutePlain(repl: string, matched: string, before: string, after: string)
    requires '$' !in repl
    ensures Substitute(repl, matched, before, after) == repl
    decreases |repl|
  {
    if repl != [] {
      assert repl == [repl[0]] + repl[1..];
      SubstitutePlain(repl[1..], matched, before, after);
    }
  }

  /** One key replaces only the first occurrence of its value: the text
      before it has none, and the text after it is kept as it was. */
  lemma ReplaceOneKey(message: string, key: string, config: seq<Prop>, i: nat)
    requires '$' !in key
    requires IndexOf(message, ConfigPattern(config, key)) == Some(i)
    ensures var pat := ConfigPattern(config, key);
      && i + |pat| <= |message|
      && message[i..i + |pat|] == pat
      && (forall j :: 0 <= j < i ==> !OccursAt(message, pat, j))
      && ReplaceKeys(message, [key], config) == message[..i] + key + message[i + |pat|..]
  {
    var pat := ConfigPattern(config, key);
    ReplaceFirstAt(message, pat, key, i);
    SubstitutePlain(key, pat, message[..i], message[i + |pat|..]);
    assert ReplaceKeys(message, [key], config) == ReplaceFirst(message, pat, key) by {
      assert [key][1..] == [];
    }
  }

  /** The message defaults to the empty text; a text message has the keys
      replaced; anything else throws once there is a key to replace. */
  lemma SanitiseDangerousKeysSpec(msg: JsValue, keys: seq<string>, config: seq<Prop>)
    ensures msg == Undefined ==> SanitiseDangerousKeys(msg, keys, config) == Ok(Str(ReplaceKeys("", keys, config)))
    ensures msg.Str? ==> SanitiseDangerousKeys(msg, keys, config) == Ok(Str(ReplaceKeys(msg.s, keys, config)))
    ensures SanitiseDangerousKeys(msg, keys, config).Err? <==> keys != [] && !msg.Str? && msg != Undefined
  {
  }

  /** `sanitiseMessage` changes the `message` field and no other. */
  lemma SanitiseMessageSpec(info: seq<Prop>, keys: seq<string>, config: seq<Prop>, name: string)
    ensures SanitiseMessage(info, keys, config).Err? <==> SanitiseDangerousKeys(MessageOf(info), keys, config).Err?
    ensures SanitiseMessage(info, keys, config).Ok? ==>
      var r := SanitiseMessage(info, keys, config).value;
      && NoDuplicates(Names(r))
      && Lookup(r, "message") == Some(SanitiseDangerousKeys(MessageOf(info), keys, config).value)
      && (name != "message" ==> Lookup(r, name) == Lookup(info, name))
  {
    match SanitiseDangerousKeys(MessageOf(info), keys, config)
    case Ok(v) =>
      var p := Prop("message", v);
      AssignLookup([], info, name);
      AssignLookup(Assign([], info), [p], name);
      AssignLookup(Assign([], info), [p], "message");
      LookupFront(p, [], name);
      LookupFront(p, [], "message");
      assert [p] + [] == [p];
    case Err(_) =>
  }
}
