/**
 * Saving the settings: which store entries `save_settings` writes, the
 * errors it reports, and how it reads the voucher model list typed by the
 * user (one model id per line). The validation of the token and the key is a
 * network call; its outcome is a parameter.
 */
module Settings {
  import opened Wrappers
  import opened Text

  /** A voucher entry is kept when it is trimmed, non-empty and holds a `/`. */
  predicate IsVoucherEntry(e: string) {
    e != "" && '/' in e && !IsSpace(e[0]) && !IsSpace(e[|e| - 1])
  }

  /** Trim each line and keep the entries worth storing, in line order. */
  function KeepVoucherEntries(lines: seq<string>): (ids: seq<string>)
    ensures |ids| <= |lines|
    ensures forall k :: 0 <= k < |ids| ==> IsVoucherEntry(ids[k])
  {
    if |lines| == 0 then []
    else
      var t := Trim(lines[0]);
      var rest := KeepVoucherEntries(lines[1..]);
      if t != "" && '/' in t then [t] + rest else rest
  }

  /** The voucher model ids read from the text box. */
  function ParseVoucherList(text: string): (ids: seq<string>)
    ensures |ids| <= |Lines(text)|
    ensures forall k :: 0 <= k < |ids| ==> IsVoucherEntry(ids[k])
  {
    KeepVoucherEntries(Lines(text))
  }

  /** The lines, trimmed. */
  function TrimAll(lines: seq<string>): (ts: seq<string>)
    ensures |ts| == |lines|
    ensures forall k :: 0 <= k < |lines| ==> ts[k] == Trim(lines[k])
  {
    if |lines| == 0 then [] else [Trim(lines[0])] + TrimAll(lines[1..])
  }

  /** Each kept entry is a trimmed line: the kept entries follow the line order. */
  lemma {:induction false} VoucherEntriesInOrder(lines: seq<string>)
    ensures IsSubsequence(KeepVoucherEntries(lines), TrimAll(lines))
  {
    if |lines| > 0 {
      VoucherEntriesInOrder(lines[1..]);
      var rest := KeepVoucherEntries(lines[1..]);
      var ts := TrimAll(lines);
      assert ts[1..] == TrimAll(lines[1..]);
      if |rest| > 0 {
        SubsequenceSkip(rest, ts[0], ts[1..]);
        assert [ts[0]] + ts[1..] == ts;
      }
    }
  }

  /** Every line that trims to an entry worth storing is kept. */
  lemma {:induction false} VoucherEntriesComplete(lines: seq<string>)
    ensures forall l :: l in lines && Trim(l) != "" && '/' in Trim(l) ==> Trim(l) in KeepVoucherEntries(lines)
  {
    if |lines| > 0 {
      VoucherEntriesComplete(lines[1..]);
      assert forall l :: l in lines ==> l == lines[0] || l in lines[1..];
    }
  }

  /**
   * Nothing is merged or duplicated: each entry worth storing is kept as
   * many times as it occurs among the trimmed lines, and nothing else is kept.
   */
  lemma {:induction false} VoucherEntriesCounted(lines: seq<string>)
    ensures forall e ::
      multiset(KeepVoucherEntries(lines))[e] == (if e != "" && '/' in e then multiset(TrimAll(lines))[e] else 0)
  {
    if |lines| > 0 {
      VoucherEntriesCounted(lines[1..]);
      var t := Trim(lines[0]);
      var rest := KeepVoucherEntries(lines[1..]);
      assert TrimAll(lines) == [t] + TrimAll(lines[1..]);
      assert multiset(TrimAll(lines)) == multiset{t} + multiset(TrimAll(lines[1..]));
      if t != "" && '/' in t {
        assert multiset(KeepVoucherEntries(lines)) == multiset{t} + multiset(rest);
      }
    }
  }

  /** Every kept entry is the trimmed form of a line that holds a `/`. */
  lemma {:induction false} VoucherEntriesFromLines(lines: seq<string>)
    ensures forall e :: e in KeepVoucherEntries(lines) ==> exists l :: l in lines && e == Trim(l) && '/' in l
  {
    if |lines| > 0 {
      VoucherEntriesFromLines(lines[1..]);
      forall e | e in KeepVoucherEntries(lines)
        ensures exists l :: l in lines && e == Trim(l) && '/' in l
      {
        if e in KeepVoucherEntries(lines[1..]) {
          var l :| l in lines[1..] && e == Trim(l) && '/' in l;
          assert l in lines;
        } else {
          assert e == Trim(lines[0]) && lines[0] in lines;
        }
      }
    }
  }

  /** A value in the settings store. */
  datatype StoreValue = Str(text: string) | StrList(items: seq<string>)

  /**
   * The store entries `save_settings` may write, under the keys
   * `simpletex_token`, `siliconflow_key`, `simpletex_model` and
   * `voucher_models`.
   */
  datatype Setting = Token | ApiKey | Model | Vouchers

  const TokenRejected: string := "SimpleTex Token 无效，已清除"
  const ApiKeyRejected: string := "硅基流动 API Key 无效，已清除"

  /** The value an update map gives a setting, if it sets it. */
  function Lookup(updates: map<Setting, StoreValue>, k: Setting): Option<StoreValue> {
    if k in updates then Some(updates[k]) else None
  }

  /** A credential is checked only when one is given; a rejected one is stored as empty. */
  function CredentialWrite(given: Option<string>, valid: bool): (w: Option<StoreValue>)
    ensures w.Some? <==> given.Some? && given.value != ""
    ensures w.Some? && valid ==> w.value == Str(given.value)
    ensures w.Some? && !valid ==> w.value == Str("")
  {
    if given.Some? && given.value != "" then Some(Str(if valid then given.value else "")) else None
  }

  const TokenNotGiven: string := "未填写 Token"
  const KeyNotGiven: string := "未填写 API Key"

  /**
   * The credential `test_simpletex` and `test_siliconflow` try: the one typed
   * in when it is non-empty, else the stored one; with neither, the test
   * fails with `notGiven` before any request is made.
   */
  function CredentialToTest(given: Option<string>, stored: string, notGiven: string): (c: Result<string>)
    ensures c.Err? <==> (given.None? || given.value == "") && stored == ""
    ensures c.Err? ==> c.error == notGiven
    ensures c.Ok? ==> c.value != ""
    ensures given.Some? && given.value != "" ==> c == Ok(given.value)
    ensures (given.None? || given.value == "") && stored != "" ==> c == Ok(stored)
  {
    var use := if given.Some? && given.value != "" then given.value else stored;
    if use == "" then Err(notGiven) else Ok(use)
  }

  /**
   * `save_settings`: the store entries it sets (each at most once) and the
   * errors it reports. `tokenValid` and `keyValid` are the answers of the
   * two validation requests.
   */
  method SaveSettings(token: Option<string>, tokenValid: bool, key: Option<string>, keyValid: bool,
                      model: Option<string>, voucherText: Option<string>)
    returns (updates: map<Setting, StoreValue>, errors: seq<string>, ok: bool)
    ensures Lookup(updates, Token) == CredentialWrite(token, tokenValid)
    ensures Lookup(updates, ApiKey) == CredentialWrite(key, keyValid)
    ensures Lookup(updates, Model) == if model.Some? then Some(Str(model.value)) else None
    ensures Lookup(updates, Vouchers) ==
      if voucherText.Some? then Some(StrList(ParseVoucherList(voucherText.value))) else None
    ensures errors ==
      (if token.Some? && token.value != "" && !tokenValid then [TokenRejected] else [])
      + (if key.Some? && key.value != "" && !keyValid then [ApiKeyRejected] else [])
    ensures ok <==> errors == []
  {
    updates, errors := map[], [];
    if token.Some? && token.value != "" {
      if tokenValid {
        updates := updates[Token := Str(token.value)];
      } else {
        updates := updates[Token := Str("")];
        errors := errors + [TokenRejected];
      }
    }
    if key.Some? && key.value != "" {
      if keyValid {
        updates := updates[ApiKey := Str(key.value)];
      } else {
        updates := updates[ApiKey := Str("")];
        errors := errors + [ApiKeyRejected];
      }
    }
    if model.Some? {
      updates := updates[Model := Str(model.value)];
    }
    if voucherText.Some? {
      updates := updates[Vouchers := StrList(ParseVoucherList(voucherText.value))];
    }
    ok := errors == [];
  }

  /** The SimpleTex model shown in the settings: the stored one, `latex_ocr` when none is stored. */
  function EffectiveSimpleTexModel(stored: string): (model: string)
    ensures model != ""
    ensures stored != "" ==> model == stored
    ensures stored == "" ==> model == "latex_ocr"
  {
    if stored == "" then "latex_ocr" else stored
  }
}
