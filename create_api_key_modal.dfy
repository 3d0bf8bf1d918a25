/** The key-creation dialog (`CreateApiKeyModal`): a two-step machine,
    "create" (enter a name) and "display" (show the new secret once), the
    key handed to the page when the dialog closes, and the masked display
    of the secret.  The service's answer is a parameter. */
module CreateApiKeyModal {
  import opened JsStrings
  import opened ApiKeyTypes
  import opened ApiKeys

  /** `"•"`. */
  const Bullet: char := '\U{2022}'

  /** `maskKey`: the first 20 characters, then one bullet per remaining
      character.  `None` for a key shorter than 20 characters, where
      `repeat` gets a negative count and throws. */
  function MaskKey(key: string): (r: Option<string>)
    ensures r.Some? <==> |key| >= 20
    ensures r.Some? ==> |r.value| == |key| && r.value[..20] == key[..20]
    ensures r.Some? ==> forall i :: 20 <= i < |key| ==> r.value[i] == Bullet
  {
    if |key| < 20 then None
    else Some(key[..20] + seq(|key| - 20, _ => Bullet))
  }

  /** The mask depends only on the first 20 characters and the length. */
  lemma MaskHidesSecret(k1: string, k2: string)
    requires |k1| == |k2| >= 20 && k1[..20] == k2[..20]
    ensures MaskKey(k1) == MaskKey(k2)
  {
  }

  /** Masking the mask changes nothing. */
  lemma MaskKeyIdempotent(key: string)
    requires |key| >= 20
    ensures MaskKey(MaskKey(key).value) == MaskKey(key)
  {
    var m := MaskKey(key).value;
    assert m[..20] == key[..20];
  }

  /** The key listed after creation: the response without the secret,
      active and never used. */
  function ListedKey(r: CreateApiKeyResponse): (k: ApiKeyDTO)
    ensures k.id == r.id && k.keyPrefix == r.keyPrefix && k.name == r.name
    ensures k.createdAt == r.createdAt && k.expiresAt == r.expiresAt
    ensures k.isActive && k.lastUsedAt == NoDate
  {
    ApiKeyDTO(r.id, r.keyPrefix, r.name, true, r.createdAt, NoDate, r.expiresAt)
  }

  /** A freshly listed key is among the active ones and reads "Never used". */
  lemma ListedKeyIsActiveAndUnused(r: CreateApiKeyResponse, keys: seq<ApiKeyDTO>, now: int, formatted: string)
    ensures ActiveKeys([ListedKey(r)] + keys) == [ListedKey(r)] + ActiveKeys(keys)
    ensures FormatLastUsed(ListedKey(r).lastUsedAt, now, formatted) == "Never used"
  {
    assert ([ListedKey(r)] + keys)[1..] == keys;
  }

  datatype ModalStep = CreateStep | DisplayStep

  /** The outcome of `ApiKeyService.createApiKey`. */
  datatype CreateOutcome = Created(response: CreateApiKeyResponse) | CreateFailed

  /** A call into the parent page: `onKeyCreated(key)` or `onOpenChange(open)`. */
  datatype ParentCall = KeyCreated(key: ApiKeyDTO) | OpenChanged(open: bool)

  class KeyModal {
    var step: ModalStep
    var name: string
    var isLoading: bool
    var createdKey: Option<CreateApiKeyResponse>
    var copied: bool
    var showKey: bool

    constructor()
      ensures step == CreateStep && name == "" && !isLoading && createdKey == None && !copied && showKey
    {
      step := CreateStep;
      name := "";
      isLoading := false;
      createdKey := None;
      copied := false;
      showKey := true;
    }

    /** `resetModal`: `isLoading` is not touched. */
    method ResetModal()
      modifies this`step, this`name, this`createdKey, this`copied, this`showKey
      ensures step == CreateStep && name == "" && createdKey == None && !copied && showKey
    {
      step := CreateStep;
      name := "";
      createdKey := None;
      copied := false;
      showKey := true;
    }

    /** `handleClose(open)`: returns the calls into the parent, in order.
        Closing hands the listed form of the created key, if any, to
        `onKeyCreated` and resets; opening changes nothing; either way the
        parent's `onOpenChange` gets `open` last. */
    method HandleClose(open: bool) returns (calls: seq<ParentCall>)
      modifies this`step, this`name, this`createdKey, this`copied, this`showKey
      ensures |calls| >= 1 && calls[|calls| - 1] == OpenChanged(open)
      ensures open ==> (calls == [OpenChanged(true)] && step == old(step) && name == old(name)
        && createdKey == old(createdKey) && copied == old(copied) && showKey == old(showKey))
      ensures !open ==> step == CreateStep && name == "" && createdKey == None && !copied && showKey
      ensures !open ==> calls == (if old(createdKey).Some? then [KeyCreated(ListedKey(old(createdKey).value))] else [])
                                 + [OpenChanged(false)]
    {
      calls := [];
      if !open {
        if createdKey.Some? {
          calls := [KeyCreated(ListedKey(createdKey.value))];
        }
        ResetModal();
      }
      calls := calls + [OpenChanged(open)];
    }

    /** `handleCreate`: returns the name sent to the service, if any.  A
        blank name sends nothing; otherwise the trimmed name is sent and a
        success moves to the display step with the response stored. */
    method HandleCreate(outcome: CreateOutcome) returns (sent: Option<string>)
      modifies this`isLoading, this`createdKey, this`step
      ensures AllWhitespace(old(name)) ==> (sent == None
        && isLoading == old(isLoading) && createdKey == old(createdKey) && step == old(step))
      ensures !AllWhitespace(old(name)) ==> sent == Some(Trim(old(name))) && Trim(old(name)) != "" && !isLoading
      ensures !AllWhitespace(old(name)) && outcome.Created? ==>
        createdKey == Some(outcome.response) && step == DisplayStep
      ensures !AllWhitespace(old(name)) && outcome.CreateFailed? ==>
        createdKey == old(createdKey) && step == old(step)
    {
      TrimEmptyIffAllWhitespace(name);
      var trimmed := Trim(name);
      if trimmed == "" {
        sent := None;
        return;
      }
      isLoading := true;
      sent := Some(trimmed);
      match outcome {
        case Created(response) =>
          createdKey := Some(response);
          step := DisplayStep;
        case CreateFailed =>
      }
      isLoading := false;
    }

    method SetName(text: string)
      modifies this`name
      ensures name == text
    {
      name := text;
    }

    method ToggleShowKey()
      modifies this`showKey
      ensures showKey == !old(showKey)
    {
      showKey := !showKey;
    }
  }

  /** A whole session: type a name, create successfully, close.  The page
      receives the listed form of the response, then learns that the dialog
      closed, and the dialog is back at its first step. */
  method CreateAndClose(m: KeyModal, typed: string, response: CreateApiKeyResponse)
    returns (sent: Option<string>, calls: seq<ParentCall>)
    requires !AllWhitespace(typed)
    modifies m
    ensures sent == Some(Trim(typed))
    ensures calls == [KeyCreated(ListedKey(response)), OpenChanged(false)]
    ensures m.step == CreateStep && m.name == "" && m.createdKey == None
  {
    m.SetName(typed);
    sent := m.HandleCreate(Created(response));
    calls := m.HandleClose(false);
  }
}
