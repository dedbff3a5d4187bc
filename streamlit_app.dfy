/**
 * sop_generator/app.py: the preview its `parse_sections_from_content` assembles from the
 * generated text: every configured section receives the whole text, unless it is a manual
 * section with content of its own.
 */
module StreamlitApp {
  import opened Wrappers
  import opened Text
  import opened Records
  import opened Session

  /** The entries of the append loop for the first sections; `None` at a section without
      a title. */
  function PreviewFrom(content: string, configs: seq<SectionSpec>): Option<seq<Section>> {
    if |configs| == 0 then Some([])
    else
      var cfg := configs[|configs| - 1];
      match PreviewFrom(content, configs[..|configs| - 1])
      case None => None
      case Some(r) =>
        if cfg.title.None? then None
        else Some(r + [Section(cfg.title.value, if ManualWithContent(cfg) then cfg.content.value else content)])
  }

  /** `parse_sections_from_content(content, section_configs)`. */
  function Preview(content: string, configs: seq<SectionSpec>): Option<seq<Section>> {
    if Strip(content) == "" then NoContentPreview(configs) else PreviewFrom(content, configs)
  }

  /** The append loop. */
  method ParseSections(content: string, configs: seq<SectionSpec>) returns (r: Option<seq<Section>>)
    ensures r == Preview(content, configs)
  {
    if Strip(content) == "" {
      r := Placeholders(configs);
      return;
    }
    var sections := [];
    var k := 0;
    while k < |configs|
      invariant k <= |configs|
      invariant PreviewFrom(content, configs[..k]) == Some(sections)
    {
      var cfg := configs[k];
      assert configs[..k + 1][..k] == configs[..k];
      if cfg.title.None? {
        PreviewFromSpec(content, configs);
        return None;
      }
      if cfg.mode == Some("manual") && Truthy(cfg.content) {
        sections := sections + [Section(cfg.title.value, cfg.content.value)];
      } else {
        sections := sections + [Section(cfg.title.value, content)];
      }
      k := k + 1;
    }
    assert configs[..k] == configs;
    r := Some(sections);
  }

  /** The placeholder comprehension. */
  method Placeholders(configs: seq<SectionSpec>) returns (r: Option<seq<Section>>)
    ensures r == NoContentPreview(configs)
  {
    var sections := [];
    var k := 0;
    while k < |configs|
      invariant k <= |configs|
      invariant NoContentPreview(configs[..k]) == Some(sections)
    {
      assert configs[..k + 1][..k] == configs[..k];
      if configs[k].title.None? {
        NoContentPreviewSpec(configs);
        return None;
      }
      sections := sections + [Section(configs[k].title.value, NoContent)];
      k := k + 1;
    }
    assert configs[..k] == configs;
    r := Some(sections);
  }

  /** The loop's entries exist exactly when every section has a title; there is then one
      per section, in order, with its title, and its content is the section's own for a
      manual section with content and the whole generated text otherwise. */
  lemma {:induction false} PreviewFromSpec(content: string, configs: seq<SectionSpec>)
    ensures PreviewFrom(content, configs).Some? <==> AllTitled(configs)
    ensures PreviewFrom(content, configs).Some? ==>
      |PreviewFrom(content, configs).value| == |configs|
      && forall k :: 0 <= k < |configs| ==>
        PreviewFrom(content, configs).value[k].title == configs[k].title.value
        && PreviewFrom(content, configs).value[k].content
           == if ManualWithContent(configs[k]) then configs[k].content.value else content
  {
    if |configs| > 0 {
      var init := configs[..|configs| - 1];
      PreviewFromSpec(content, init);
      assert forall k :: 0 <= k < |init| ==> init[k] == configs[k];
    }
  }

  /** Blank generated text gives every section the placeholder, manual or not; otherwise
      no section receives the placeholder unless the text or its own content is it. */
  lemma PreviewSpec(content: string, configs: seq<SectionSpec>)
    ensures Preview(content, configs).Some? <==> AllTitled(configs)
    ensures Preview(content, configs).Some? ==>
      |Preview(content, configs).value| == |configs|
      && forall k :: 0 <= k < |configs| ==>
        Preview(content, configs).value[k].title == configs[k].title.value
        && Preview(content, configs).value[k].content
           == if Strip(content) == "" then NoContent
              else if ManualWithContent(configs[k]) then configs[k].content.value
              else content
  {
    NoContentPreviewSpec(configs);
    PreviewFromSpec(content, configs);
  }
}
