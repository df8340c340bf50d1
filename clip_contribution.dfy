/**
 * ClipContribution: whether a LoRA file touches the text encoder, judged
 * only from the names of its tensors. A key counts when its lower-cased
 * name contains one of the CLIP tokens; the file is a CLIP contributor
 * when at least one key counts.
 */
module ClipContribution {
  import opened Text

  /** `CLIP_KEY_SUBSTRINGS` */
  const ClipKeySubstrings: seq<string> :=
    ["text_encoder", "text_model", "text_model_encoder", "clip", "te1", "te2", "lora_te1", "lora_te2"]

  /** `key or ""`, lower-cased. A missing key reads as the empty name. */
  function KeyText(key: Option<string>): string
  {
    Lower(OrEmpty(key))
  }

  /** `any(token in key_lower for token in CLIP_KEY_SUBSTRINGS)` */
  predicate IsClipKey(key: Option<string>)
  {
    exists t | t in ClipKeySubstrings :: Contains(KeyText(key), t)
  }

  /** The number of keys that name a text-encoder tensor. */
  function ClipKeyCount(keys: seq<Option<string>>): (n: nat)
    ensures n <= |keys|
  {
    if keys == [] then 0
    else ClipKeyCount(keys[..|keys| - 1]) + (if IsClipKey(keys[|keys| - 1]) then 1 else 0)
  }

  /** The `any(...)` scan over the tokens for one lower-cased key. */
  method MatchesAnyToken(keyLower: string) returns (found: bool)
    ensures found <==> exists t | t in ClipKeySubstrings :: Contains(keyLower, t)
  {
    found := false;
    for k := 0 to |ClipKeySubstrings|
      invariant found <==> exists a | 0 <= a < k :: Contains(keyLower, ClipKeySubstrings[a])
    {
      if Contains(keyLower, ClipKeySubstrings[k]) {
        found := true;
      }
    }
  }

  /** `is_clip_contributor`: the counting loop over the keys. */
  method IsClipContributor(keys: seq<Option<string>>) returns (contributor: bool, count: nat)
    ensures count == ClipKeyCount(keys)
    ensures contributor <==> count > 0
  {
    count := 0;
    for i := 0 to |keys|
      invariant count == ClipKeyCount(keys[..i])
    {
      assert keys[..i + 1][..i] == keys[..i];
      var keyLower := KeyText(keys[i]);
      var hit := MatchesAnyToken(keyLower);
      if hit {
        count := count + 1;
      }
    }
    assert keys[..|keys|] == keys;
    contributor := count > 0;
  }

  /** The file contributes exactly when some key is a CLIP key. */
  lemma {:induction false} ContributorIffSomeClipKey(keys: seq<Option<string>>)
    ensures ClipKeyCount(keys) > 0 <==> exists i | 0 <= i < |keys| :: IsClipKey(keys[i])
    decreases |keys|
  {
    if ClipKeyCount(keys) > 0 {
      CountedKeyExists(keys);
    }
    if exists i | 0 <= i < |keys| :: IsClipKey(keys[i]) {
      var i :| 0 <= i < |keys| && IsClipKey(keys[i]);
      ClipKeyIsCounted(keys, i);
    }
  }

  lemma {:induction false} CountedKeyExists(keys: seq<Option<string>>)
    requires ClipKeyCount(keys) > 0
    ensures exists i | 0 <= i < |keys| :: IsClipKey(keys[i])
    decreases |keys|
  {
    var n := |keys| - 1;
    if !IsClipKey(keys[n]) {
      var p := keys[..n];
      CountedKeyExists(p);
      var j :| 0 <= j < |p| && IsClipKey(p[j]);
      assert keys[j] == p[j];
    }
  }

  lemma {:induction false} ClipKeyIsCounted(keys: seq<Option<string>>, i: nat)
    requires i < |keys| && IsClipKey(keys[i])
    ensures ClipKeyCount(keys) > 0
    decreases |keys|
  {
    var n := |keys| - 1;
    if i < n {
      var p := keys[..n];
      assert p[i] == keys[i];
      ClipKeyIsCounted(p, i);
    }
  }

  /** Counting a concatenation adds the two counts. */
  lemma {:induction false} ClipKeyCountConcat(a: seq<Option<string>>, b: seq<Option<string>>)
    ensures ClipKeyCount(a + b) == ClipKeyCount(a) + ClipKeyCount(b)
    decreases |b|
  {
    if b == [] {
      assert a + b == a;
    } else {
      var q := b[..|b| - 1];
      assert (a + b)[..|a + b| - 1] == a + q;
      ClipKeyCountConcat(a, q);
    }
  }

  /** A missing key reads as "" and never counts, since every token is non-empty. */
  lemma MissingKeyNeverCounts()
    ensures !IsClipKey(None)
    ensures !IsClipKey(Some(""))
  {
    assert KeyText(None) == "" && KeyText(Some("")) == "";
    forall t | t in ClipKeySubstrings ensures !Contains("", t) {
      NotContainsByChar("", t, 0);
    }
  }

  /** The tokens are matched against the lower-cased name, so upper-case spellings count too. */
  lemma CaseInsensitive(key: string)
    ensures IsClipKey(Some(key)) <==> IsClipKey(Some(Lower(key)))
  {
    LowerIdempotent(key);
  }

  // The key names of the contributor examples, in pieces short enough to reason about one at a time.
  const DownBlocks: string := "lora_unet_down_blocks_"
  const Attentions: string := "_attentions_"
  const UnetKeyA: string := DownBlocks + "0_attentions_0_to_q." + "lora_down.weight"
  const UnetKeyB: string := DownBlocks + "1" + Attentions + "1" + "_to_k.lora_u" + "p" + ".weight"
  const TextEncoderKey: string := "lora_te1" + "_text_model_encoder_layers_0_mlp_fc1.lora_up.weight"

  /** Lower-case letters other than 'p' and 'x', '0', '_' and '.'. */
  predicate SafeChar(c: char)
  {
    ('a' <= c <= 'o') || ('q' <= c <= 'w') || c == 'y' || c == 'z' || c == '0' || c == '_' || c == '.'
  }

  predicate Safe(s: string)
  {
    forall j | 0 <= j < |s| :: SafeChar(s[j])
  }

  /**
   * A lower-case piece of a name with no 'x', no '2', no "ip" and no "e1":
   * each CLIP token contains one of these, so no token fits inside it.
   */
  predicate Plain(s: string)
  {
    IsLowerCase(s) && Lacks(s, 'x') && Lacks(s, '2') && LacksPair(s, 'i', 'p') && LacksPair(s, 'e', '1')
  }

  lemma SafeIsPlain(s: string)
    requires Safe(s)
    ensures Plain(s)
  {
  }

  /** Two plain pieces make a plain name unless the seam is "e1" or "ip". */
  lemma PlainConcat(a: string, b: string)
    requires Plain(a) && Plain(b)
    requires a == [] || b == [] || (!(a[|a| - 1] == 'e' && b[0] == '1') && !(a[|a| - 1] == 'i' && b[0] == 'p'))
    ensures Plain(a + b)
  {
    LowerCaseConcat(a, b);
    LacksConcat(a, b, 'x');
    LacksPairConcat(a, b, 'i', 'p');
    LacksConcat(a, b, '2');
    LacksPairConcat(a, b, 'e', '1');
  }

  /** A plain name contains no CLIP token. */
  lemma PlainIsNotClip(s: string)
    requires Plain(s)
    ensures !IsClipKey(Some(s))
  {
    LowerOfLowerCase(s);
    assert KeyText(Some(s)) == s;
    NotContainsByChar(s, "text_encoder", 2);
    NotContainsByChar(s, "text_model", 2);
    NotContainsByChar(s, "text_model_encoder", 2);
    NotContainsByPair(s, "clip", 2);
    NotContainsByPair(s, "te1", 1);
    NotContainsByChar(s, "te2", 2);
    NotContainsByPair(s, "lora_te1", 6);
    NotContainsByChar(s, "lora_te2", 7);
  }

  lemma PiecesAreSafe()
    ensures Safe(DownBlocks) && DownBlocks[|DownBlocks| - 1] == '_'
    ensures Safe(Attentions) && Attentions[0] == '_' && Attentions[|Attentions| - 1] == '_'
  {
  }

  lemma UnetKeyAIsNotClip()
    ensures !IsClipKey(Some(UnetKeyA))
  {
    var b, c := "0_attentions_0_to_q.", "lora_down.weight";
    assert Safe(b);
    assert Safe(c);
    PiecesAreSafe();
    SafeIsPlain(DownBlocks);
    SafeIsPlain(b);
    SafeIsPlain(c);
    PlainConcat(DownBlocks, b);
    PlainConcat(DownBlocks + b, c);
    PlainIsNotClip(UnetKeyA);
  }

  lemma UnetKeyBIsNotClip()
    ensures !IsClipKey(Some(UnetKeyB))
  {
    var one, toK, p, weight := "1", "_to_k.lora_u", "p", ".weight";
    assert Safe(toK) && toK[0] == '_' && toK[|toK| - 1] == 'u';
    assert Safe(weight);
    assert Plain(one) && Plain(p);
    PiecesAreSafe();
    SafeIsPlain(DownBlocks);
    SafeIsPlain(Attentions);
    SafeIsPlain(toK);
    SafeIsPlain(weight);
    PlainConcat(DownBlocks, one);
    PlainConcat(DownBlocks + one, Attentions);
    PlainConcat(DownBlocks + one + Attentions, one);
    PlainConcat(DownBlocks + one + Attentions + one, toK);
    PlainConcat(DownBlocks + one + Attentions + one + toK, p);
    PlainConcat(DownBlocks + one + Attentions + one + toK + p, weight);
    PlainIsNotClip(UnetKeyB);
  }

  /** The te1 key starts with "lora_te1", so it names a text-encoder tensor. */
  lemma TextEncoderKeyIsClip()
    ensures IsClipKey(Some(TextEncoderKey))
  {
    var head, rest := "lora_te1", "_text_model_encoder_layers_0_mlp_fc1.lora_up.weight";
    assert IsLowerCase(head);
    LowerOfLowerCase(head);
    LowerConcat(head, rest);
    var k := KeyText(Some(TextEncoderKey));
    assert k == head + Lower(rest);
    assert k[0..8] == head;
    assert "lora_te1" in ClipKeySubstrings;
    ContainsWitness(k, "lora_te1", 0);
  }

  /** A UNet key beside a te1 key gives one CLIP tensor; two UNet keys give none. */
  lemma ContributorExamples()
    ensures ClipKeyCount([Some(UnetKeyA), Some(TextEncoderKey)]) == 1
    ensures ClipKeyCount([Some(UnetKeyA), Some(UnetKeyB)]) == 0
  {
    UnetKeyAIsNotClip();
    UnetKeyBIsNotClip();
    TextEncoderKeyIsClip();
    assert [Some(UnetKeyA), Some(TextEncoderKey)][..1] == [Some(UnetKeyA)];
    assert [Some(UnetKeyA), Some(UnetKeyB)][..1] == [Some(UnetKeyA)];
    assert [Some(UnetKeyA)][..0] == [];
  }
}
