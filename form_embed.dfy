/**
 * The embed-script guard that both the form-modal provider and the mobile form section run
 * when they mount: append the vendor's `form_embed.js` unless a script already loads it.
 */
module FormEmbed {
  import opened Text
  import opened Dom
  import GoogleTag

  /** The substring the guard looks for in script sources. */
  const EmbedFragment: string := "form_embed.js"
  /** The script the guard appends: https://link.msgsndr.com/js/form_embed.js */
  const EmbedSrc: string := "https://link.msgsndr.com/js/" + EmbedFragment

  /** The document's script sources after the guard has run. */
  function ScriptsAfterEmbed(scripts: seq<string>): seq<string> {
    if HasScript(scripts, EmbedFragment) then scripts else scripts + [EmbedSrc]
  }

  /** The mount effect: return when an embed script is present, else append one. */
  method LoadEmbedScript(page: Page)
    modifies page`scripts
    ensures page.scripts == ScriptsAfterEmbed(old(page.scripts))
  {
    if HasScript(page.scripts, EmbedFragment) {
      return;
    }
    page.AppendScript(EmbedSrc);
  }

  /** The appended source contains the guarded substring. */
  lemma EmbedSrcMatchesGuard()
    ensures Contains(EmbedSrc, EmbedFragment)
  {
    var head := "https://link.msgsndr.com/js/";
    assert EmbedSrc[|head|..|head| + |EmbedFragment|] == EmbedFragment;
    assert OccursAt(EmbedSrc, EmbedFragment, |head|);
  }

  /** Running the guard again changes nothing. */
  lemma SecondEmbedIsNoOp(scripts: seq<string>)
    ensures ScriptsAfterEmbed(ScriptsAfterEmbed(scripts)) == ScriptsAfterEmbed(scripts)
  {
    if !HasScript(scripts, EmbedFragment) {
      EmbedSrcMatchesGuard();
      assert ScriptsAfterEmbed(scripts)[|scripts|] == EmbedSrc;
    }
  }

  /** The guard leaves exactly one embed script when there was none, and adds none otherwise. */
  lemma EmbedCountsOneScript(scripts: seq<string>)
    ensures CountMatching(ScriptsAfterEmbed(scripts), EmbedFragment)
         == if CountMatching(scripts, EmbedFragment) == 0 then 1 else CountMatching(scripts, EmbedFragment)
  {
    HasScriptIffCount(scripts, EmbedFragment);
    if !HasScript(scripts, EmbedFragment) {
      EmbedSrcMatchesGuard();
      CountAppend(scripts, EmbedSrc, EmbedFragment);
    }
  }

  /** Loading the conversion tag never adds a script the embed guard would match ... */
  lemma TagLoadKeepsEmbedCount(scripts: seq<string>)
    ensures CountMatching(GoogleTag.ScriptsAfterLoad(scripts), EmbedFragment) == CountMatching(scripts, EmbedFragment)
  {
    if !HasScript(scripts, GoogleTag.GtagFragment) {
      assert EmbedFragment[4] == '_';
      assert '_' !in "https://www." && '_' !in GoogleTag.GtagFragment && '_' !in "?id=" && '_' !in GoogleTag.ConversionId;
      if Contains(GoogleTag.GtagSrc, EmbedFragment) {
        ContainedCharsOccur(GoogleTag.GtagSrc, EmbedFragment, '_');
      }
      CountAppend(scripts, GoogleTag.GtagSrc, EmbedFragment);
    }
  }

  /** ... and the embed guard never adds a script the tag loader's guard would match. */
  lemma EmbedKeepsTagCount(scripts: seq<string>)
    ensures CountMatching(ScriptsAfterEmbed(scripts), GoogleTag.GtagFragment) == CountMatching(scripts, GoogleTag.GtagFragment)
  {
    if !HasScript(scripts, EmbedFragment) {
      assert GoogleTag.GtagFragment[7] == 'a';
      assert 'a' !in "https://link.msgsndr.com/js/" && 'a' !in EmbedFragment;
      if Contains(EmbedSrc, GoogleTag.GtagFragment) {
        ContainedCharsOccur(EmbedSrc, GoogleTag.GtagFragment, 'a');
      }
      CountAppend(scripts, EmbedSrc, GoogleTag.GtagFragment);
    }
  }
}
