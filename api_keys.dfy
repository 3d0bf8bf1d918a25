/** The API-key page (`ApiKeys`): the list of the user's keys, prepended to
    when a key is created and soft-revoked (marked inactive, never removed),
    its split into active and revoked keys, and the relative "last used"
    text.  The service's list response and the clock are parameters. */
module ApiKeys {
  import opened JsStrings
  import opened JsNumbers
  import opened ApiKeyTypes
  import opened Sequences

  /** `prev.map(key => key.id === id ? { ...key, is_active: false } : key)`. */
  function Revoke(keys: seq<ApiKeyDTO>, id: int): (r: seq<ApiKeyDTO>)
    ensures |r| == |keys|
    ensures forall i :: 0 <= i < |r| ==>
      r[i] == if keys[i].id == id then keys[i].(isActive := false) else keys[i]
    decreases |keys|
  {
    if keys == [] then []
    else [if keys[0].id == id then keys[0].(isActive := false) else keys[0]] + Revoke(keys[1..], id)
  }

  /** Revoking twice is revoking once. */
  lemma RevokeIdempotent(keys: seq<ApiKeyDTO>, id: int)
    ensures Revoke(Revoke(keys, id), id) == Revoke(keys, id)
  {
  }

  /** `apiKeys.filter(key => key.is_active)`. */
  function ActiveKeys(keys: seq<ApiKeyDTO>): (r: seq<ApiKeyDTO>)
    ensures forall k :: k in r <==> k in keys && k.isActive
    decreases |keys|
  {
    if keys == [] then []
    else (if keys[0].isActive then [keys[0]] else []) + ActiveKeys(keys[1..])
  }

  /** `apiKeys.filter(key => !key.is_active)`. */
  function RevokedKeys(keys: seq<ApiKeyDTO>): (r: seq<ApiKeyDTO>)
    ensures forall k :: k in r <==> k in keys && !k.isActive
    decreases |keys|
  {
    if keys == [] then []
    else (if keys[0].isActive then [] else [keys[0]]) + RevokedKeys(keys[1..])
  }

  /** The two lists split the keys: each key is in exactly one of them,
      as often as in the whole list, and each list keeps the list order. */
  lemma ActiveRevokedPartition(keys: seq<ApiKeyDTO>)
    ensures multiset(ActiveKeys(keys)) + multiset(RevokedKeys(keys)) == multiset(keys)
    ensures |ActiveKeys(keys)| + |RevokedKeys(keys)| == |keys|
    ensures Subsequence(ActiveKeys(keys), keys) && Subsequence(RevokedKeys(keys), keys)
  {
    ActiveRevokedMultiset(keys);
    assert |multiset(ActiveKeys(keys))| + |multiset(RevokedKeys(keys))| == |multiset(keys)|;
    ActiveKeysKeepOrder(keys);
    RevokedKeysKeepOrder(keys);
  }

  lemma {:induction false} ActiveRevokedMultiset(keys: seq<ApiKeyDTO>)
    ensures multiset(ActiveKeys(keys)) + multiset(RevokedKeys(keys)) == multiset(keys)
    decreases |keys|
  {
    if keys != [] {
      var rest := keys[1..];
      calc {
        multiset(ActiveKeys(keys)) + multiset(RevokedKeys(keys));
        { ActiveRevokedStep(keys); }
        multiset{keys[0]} + (multiset(ActiveKeys(rest)) + multiset(RevokedKeys(rest)));
        { ActiveRevokedMultiset(rest); }
        multiset{keys[0]} + multiset(rest);
        { assert keys == [keys[0]] + rest; }
        multiset(keys);
      }
    }
  }

  /** The first key lands in exactly one of the two lists. */
  lemma ActiveRevokedStep(keys: seq<ApiKeyDTO>)
    requires keys != []
    ensures multiset(ActiveKeys(keys)) + multiset(RevokedKeys(keys))
      == multiset{keys[0]} + (multiset(ActiveKeys(keys[1..])) + multiset(RevokedKeys(keys[1..])))
  {
    var a, b := ActiveKeys(keys[1..]), RevokedKeys(keys[1..]);
    if keys[0].isActive {
      assert ActiveKeys(keys) == [keys[0]] + a;
      assert RevokedKeys(keys) == b;
    } else {
      assert ActiveKeys(keys) == a;
      assert RevokedKeys(keys) == [keys[0]] + b;
    }
  }

  lemma {:induction false} ActiveKeysKeepOrder(keys: seq<ApiKeyDTO>)
    ensures Subsequence(ActiveKeys(keys), keys)
    decreases |keys|
  {
    if keys != [] {
      ActiveKeysKeepOrder(keys[1..]);
      if keys[0].isActive {
        assert ActiveKeys(keys)[1..] == ActiveKeys(keys[1..]);
      } else {
        assert ActiveKeys(keys) == ActiveKeys(keys[1..]);
        SubsequenceOfTail(ActiveKeys(keys[1..]), keys);
      }
    }
  }

  lemma {:induction false} RevokedKeysKeepOrder(keys: seq<ApiKeyDTO>)
    ensures Subsequence(RevokedKeys(keys), keys)
    decreases |keys|
  {
    if keys != [] {
      RevokedKeysKeepOrder(keys[1..]);
      if !keys[0].isActive {
        assert RevokedKeys(keys)[1..] == RevokedKeys(keys[1..]);
      } else {
        assert RevokedKeys(keys) == RevokedKeys(keys[1..]);
        SubsequenceOfTail(RevokedKeys(keys[1..]), keys);
      }
    }
  }

  /** After a revoke no active key has the revoked id, and the active keys
      with other ids are the same as before. */
  lemma {:induction false} RevokeLeavesNoActiveKey(keys: seq<ApiKeyDTO>, id: int)
    ensures forall k :: k in ActiveKeys(Revoke(keys, id)) ==> k.id != id
    ensures forall k: ApiKeyDTO :: k.id != id ==> (k in ActiveKeys(Revoke(keys, id)) <==> k in ActiveKeys(keys))
  {
    var r := Revoke(keys, id);
    forall k | k in ActiveKeys(r) ensures k.id != id {
      var i :| 0 <= i < |r| && r[i] == k;
    }
    forall k: ApiKeyDTO | k.id != id && k in ActiveKeys(keys) ensures k in ActiveKeys(r) {
      var i :| 0 <= i < |keys| && keys[i] == k;
      assert r[i] == k;
    }
    forall k: ApiKeyDTO | k.id != id && k in ActiveKeys(r) ensures k in ActiveKeys(keys) {
      var i :| 0 <= i < |r| && r[i] == k;
      assert keys[i] == k;
    }
  }

  /** `Math.floor(diff / unit)` for a whole number of milliseconds. */
  function FloorDiv(diff: int, unit: nat): int
    requires unit > 0
  {
    diff / unit
  }

  /** `${n} <unit>${n === 1 ? "" : "s"} ago`. */
  function Ago(n: int, unit: string): string {
    IntToString(n) + " " + unit + (if n == 1 then "" else "s") + " ago"
  }

  /** The unit word is singular exactly when the count is 1. */
  lemma AgoSingularIffOne(n: int, unit: string)
    ensures Ago(n, unit) == IntToString(n) + " " + unit + " ago" <==> n == 1
  {
    if n != 1 {
      assert |Ago(n, unit)| == |IntToString(n) + " " + unit + " ago"| + 1;
    }
  }

  /** `formatLastUsed`, at time `now` (milliseconds since the epoch), with
      `formatted` the `formatDate` text of the timestamp. */
  function FormatLastUsed(lastUsed: DateField, now: int, formatted: string): string {
    match lastUsed
    case NoDate => "Never used"
    case InvalidDate => formatted
    case At(ms) =>
      var diffMs := now - ms;
      var diffMins := FloorDiv(diffMs, 60000);
      var diffHours := FloorDiv(diffMs, 3600000);
      var diffDays := FloorDiv(diffMs, 86400000);
      if diffMins < 1 then "Just now"
      else if diffMins < 60 then Ago(diffMins, "minute")
      else if diffHours < 24 then Ago(diffHours, "hour")
      else if diffDays < 7 then Ago(diffDays, "day")
      else formatted
  }

  lemma FloorDivBounds(d: int, unit: nat, lo: int)
    requires unit > 0
    ensures FloorDiv(d, unit) < lo <==> d < lo * unit
    ensures FloorDiv(d, unit) >= lo ==> FloorDiv(d, unit) * unit <= d
  {
    var q := FloorDiv(d, unit);
    assert d == q * unit + d % unit && 0 <= d % unit < unit;
    if q < lo {
      assert q <= lo - 1;
      assert q * unit <= (lo - 1) * unit;
    } else {
      assert q * unit >= lo * unit;
    }
  }

  /** The buckets by elapsed milliseconds: under a minute (a timestamp in
      the future included) is "Just now"; then whole minutes below an
      hour, whole hours below a day, whole days below a week; from a week
      on, the formatted date.  A missing timestamp is "Never used". */
  lemma FormatLastUsedBuckets(ms: int, now: int, formatted: string)
    ensures FormatLastUsed(NoDate, now, formatted) == "Never used"
    ensures now - ms < 60000 ==> FormatLastUsed(At(ms), now, formatted) == "Just now"
    ensures 60000 <= now - ms < 3600000 ==>
      FormatLastUsed(At(ms), now, formatted) == Ago((now - ms) / 60000, "minute")
      && 1 <= (now - ms) / 60000 < 60
    ensures 3600000 <= now - ms < 86400000 ==>
      FormatLastUsed(At(ms), now, formatted) == Ago((now - ms) / 3600000, "hour")
      && 1 <= (now - ms) / 3600000 < 24
    ensures 86400000 <= now - ms < 604800000 ==>
      FormatLastUsed(At(ms), now, formatted) == Ago((now - ms) / 86400000, "day")
      && 1 <= (now - ms) / 86400000 < 7
    ensures 604800000 <= now - ms ==> FormatLastUsed(At(ms), now, formatted) == formatted
  {
    var d := now - ms;
    FloorDivBounds(d, 60000, 1);
    FloorDivBounds(d, 60000, 60);
    FloorDivBounds(d, 3600000, 1);
    FloorDivBounds(d, 3600000, 24);
    FloorDivBounds(d, 86400000, 1);
    FloorDivBounds(d, 86400000, 7);
  }

  /** The outcome of `ApiKeyService.listApiKeys`: the keys, or an error
      with the server's `detail` text when it sent one. */
  datatype ListOutcome = Listed(keys: seq<ApiKeyDTO>) | ListFailed(detail: Option<string>)

  const LoadFailedMessage := "Failed to load API keys. Please try again."

  class ApiKeysPage {
    var loading: bool
    var error: Option<string>
    var apiKeys: seq<ApiKeyDTO>
    var keyToRevoke: Option<ApiKeyDTO>

    constructor()
      ensures loading && error == None && apiKeys == [] && keyToRevoke == None
    {
      loading := true;
      error := None;
      apiKeys := [];
      keyToRevoke := None;
    }

    /** `fetchApiKeys`: a failure keeps the old list and shows the server's
        detail when it is non-empty, the generic message otherwise. */
    method FetchApiKeys(outcome: ListOutcome)
      modifies this`loading, this`error, this`apiKeys
      ensures !loading
      ensures outcome.Listed? ==> apiKeys == outcome.keys && error == None
      ensures outcome.ListFailed? ==> apiKeys == old(apiKeys)
      ensures outcome.ListFailed? ==>
        error == Some(if outcome.detail.Some? && outcome.detail.value != "" then outcome.detail.value else LoadFailedMessage)
    {
      loading := true;
      error := None;
      match outcome {
        case Listed(keys) =>
          apiKeys := keys;
        case ListFailed(detail) =>
          if detail.Some? && detail.value != "" {
            error := Some(detail.value);
          } else {
            error := Some(LoadFailedMessage);
          }
      }
      loading := false;
    }

    /** `handleKeyCreated`: the new key goes first. */
    method HandleKeyCreated(newKey: ApiKeyDTO)
      modifies this`apiKeys
      ensures apiKeys == [newKey] + old(apiKeys)
      ensures ActiveKeys(apiKeys) == (if newKey.isActive then [newKey] else []) + ActiveKeys(old(apiKeys))
    {
      apiKeys := [newKey] + apiKeys;
      assert apiKeys[1..] == old(apiKeys);
    }

    /** `handleKeyRevoked`: a soft delete, the list keeps its length. */
    method HandleKeyRevoked(revokedKeyId: int)
      modifies this`apiKeys, this`keyToRevoke
      ensures apiKeys == Revoke(old(apiKeys), revokedKeyId)
      ensures |apiKeys| == |old(apiKeys)|
      ensures keyToRevoke == None
    {
      apiKeys := Revoke(apiKeys, revokedKeyId);
      keyToRevoke := None;
    }
  }
}
