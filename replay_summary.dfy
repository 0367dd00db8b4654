/**
 * The text of the replay panel (fronted/src/components/Replay/ReplaySummary.tsx):
 * `formatEvent` renders one timeline event as a line, and `timelineText`
 * renders a whole timeline, tick by tick.
 */
module ReplaySummary {
  import opened Wrappers
  import opened Protocol
  import Session

  /** "阶段切换：" ("phase change: "). */
  const PhasePrefix: string := "\U{9636}\U{6BB5}\U{5207}\U{6362}\U{FF1A}"
  /** "出局：" ("out: "). */
  const DeathPrefix: string := "\U{51FA}\U{5C40}\U{FF1A}"
  /** "投票：" ("vote: "). */
  const VotePrefix: string := "\U{6295}\U{7968}\U{FF1A}"
  /** "投票结束" ("voting over"). */
  const VoteEndText: string := "\U{6295}\U{7968}\U{7ED3}\U{675F}"
  /** "警长当选：" ("sheriff elected: "). */
  const SheriffPrefix: string := "\U{8B66}\U{957F}\U{5F53}\U{9009}\U{FF1A}"
  /** "警长平票" ("sheriff vote tied"). */
  const SheriffTieText: string := "\U{8B66}\U{957F}\U{5E73}\U{7968}"
  /** "本轮无警长" ("no sheriff this round"). */
  const SheriffNoneText: string := "\U{672C}\U{8F6E}\U{65E0}\U{8B66}\U{957F}"
  /** " 思考中" (" is thinking"). */
  const ThinkingSuffix: string := " \U{601D}\U{8003}\U{4E2D}"
  /** " 开始发言" (" starts speaking"). */
  const SpeechStartSuffix: string := " \U{5F00}\U{59CB}\U{53D1}\U{8A00}"

  /** The types `formatEvent` has a template for. */
  predicate HasTemplate(m: Msg) {
    m.PhaseMsg? || m.Speech? || m.Death? || m.VoteMsg? || m.VoteEnd? || m.SheriffMsg? ||
    m.SheriffTie? || m.SheriffNone? || m.Thinking? || m.SpeechStart?
  }

  /**
   * `formatEvent`: a missing event, or one without a type, renders as the
   * empty line; every other event renders as a non-empty line: its template,
   * or the bare type when it has none.
   */
  function FormatEvent(e: Option<Msg>): (r: string)
    ensures r == "" <==> e.None? || TypeName(e.value) == ""
    ensures e.Some? && !HasTemplate(e.value) ==> r == TypeName(e.value)
    ensures e.Some? && e.value.Speech? ==> r == e.value.playerId + ": " + e.value.text
    ensures e.Some? && e.value.VoteMsg? ==> r == VotePrefix + e.value.from + " -> " + e.value.to
  {
    if e.None? || TypeName(e.value) == "" then ""
    else
      match e.value
      case PhaseMsg(p) => PhasePrefix + PhaseName(p)
      case Speech(pid, text) => pid + ": " + text
      case Death(pid) => DeathPrefix + pid
      case VoteMsg(from, to) => VotePrefix + from + " -> " + to
      case VoteEnd => VoteEndText
      case SheriffMsg(pid) => SheriffPrefix + pid
      case SheriffTie => SheriffTieText
      case SheriffNone => SheriffNoneText
      case Thinking(pid) => pid + ThinkingSuffix
      case SpeechStart(pid) => pid + SpeechStartSuffix
      case _ => TypeName(e.value)
  }

  /** One line of the panel. */
  datatype Line = Line(tick: int, text: string)

  /**
   * `timelineText`: no timeline gives no lines; otherwise one line per
   * entry, in the same order, with the entry's tick and its rendered event.
   */
  function TimelineText(timeline: Option<seq<Entry>>): (r: seq<Line>)
    ensures timeline.None? ==> r == []
    ensures timeline.Some? ==> |r| == |timeline.value|
    ensures timeline.Some? ==> forall i :: 0 <= i < |r| ==>
      r[i].tick == timeline.value[i].tick && r[i].text == FormatEvent(Some(timeline.value[i].event))
  {
    if timeline.None? then []
    else
      var t := timeline.value;
      seq(|t|, i requires 0 <= i < |t| => Line(t[i].tick, FormatEvent(Some(t[i].event))))
  }

  /**
   * The replay of the server's timeline lists the ticks 0, 1, 2, ... in the
   * order the events were sent, each with that event's line.
   */
  lemma ServerTimelineText(log: seq<Msg>)
    ensures var r := TimelineText(Some(Session.Stamp(log)));
      |r| == |log| && forall i :: 0 <= i < |log| ==> r[i] == Line(i, FormatEvent(Some(log[i])))
  {
    Session.StampAt(log);
  }
}
