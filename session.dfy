/**
 * What the two Streamlit front ends (app_local.py and sop_generator/app.py) keep in their
 * session: the log list `add_log` appends to and caps, and the preview entries every
 * configured section receives.
 */
module Session {
  import opened Wrappers
  import opened Records

  /** How many log messages the session keeps. */
  const LogLimit: nat := 500

  /** `logs[-500:]`: the last 500 messages, or all of them when there are fewer. */
  function LastLogs(s: seq<string>): (r: seq<string>)
    ensures |r| == if |s| <= LogLimit then |s| else LogLimit
  {
    if |s| <= LogLimit then s else s[|s| - LogLimit..]
  }

  /** The capped log is the tail of the full log. */
  lemma LastLogsSpec(s: seq<string>)
    ensures LastLogs(s) == s[|s| - |LastLogs(s)|..]
    ensures |s| <= LogLimit ==> LastLogs(s) == s
  {
  }

  /** Capping after every message keeps what capping once at the end would: the session
      log is always the last 500 of all messages ever logged. */
  lemma LastLogsAppend(s: seq<string>, m: string)
    ensures LastLogs(LastLogs(s) + [m]) == LastLogs(s + [m])
  {
    if |s| > LogLimit {
      var t := s[|s| - LogLimit..] + [m];
      assert t[1..] == (s + [m])[|s| + 1 - LogLimit..];
    }
  }

  /** The session state the front ends share. */
  class SessionState {
    var logs: seq<string>

    /** `init_session_state`: the log list starts empty. */
    constructor ()
      ensures logs == []
    {
      logs := [];
    }

    predicate Valid()
      reads this
    {
      |logs| <= LogLimit
    }

    /** `add_log(message)`: append, then keep the last 500. */
    method AddLog(message: string)
      modifies this
      ensures logs == LastLogs(old(logs) + [message])
      ensures Valid() && logs[|logs| - 1] == message
    {
      logs := logs + [message];
      logs := LastLogs(logs);
    }
  }

  /** `"Нет содержания"`, the content of every section when nothing was generated. */
  const NoContent := "Нет содержания"

  /** Every configured section has a title: `s["title"]` raises `KeyError` otherwise. */
  predicate AllTitled(configs: seq<SectionSpec>) {
    forall k :: 0 <= k < |configs| ==> configs[k].title.Some?
  }

  /** `[{"title": s["title"], "content": "Нет содержания"} for s in section_configs]`. */
  function NoContentPreview(configs: seq<SectionSpec>): Option<seq<Section>> {
    if |configs| == 0 then Some([])
    else
      var last := configs[|configs| - 1];
      match NoContentPreview(configs[..|configs| - 1])
      case None => None
      case Some(r) => if last.title.None? then None else Some(r + [Section(last.title.value, NoContent)])
  }

  /** The placeholder preview exists exactly when every section has a title; it then has one
      entry per section, with that section's title and the placeholder content. */
  lemma {:induction false} NoContentPreviewSpec(configs: seq<SectionSpec>)
    ensures NoContentPreview(configs).Some? <==> AllTitled(configs)
    ensures NoContentPreview(configs).Some? ==>
      |NoContentPreview(configs).value| == |configs|
      && forall k :: 0 <= k < |configs| ==>
        NoContentPreview(configs).value[k] == Section(configs[k].title.value, NoContent)
  {
    if |configs| > 0 {
      var init := configs[..|configs| - 1];
      NoContentPreviewSpec(init);
      assert forall k :: 0 <= k < |init| ==> init[k] == configs[k];
    }
  }

  /** A manual section with content keeps it: `mode == "manual" and content`. */
  predicate ManualWithContent(cfg: SectionSpec) {
    cfg.mode == Some("manual") && Truthy(cfg.content)
  }
}
