/** The dashboard widgets' decision rules: the colour band of an ESG score,
    the colour and arrow of an analytics card's change line, which optional
    lines a card shows, the status badge of a project card, and the rows of
    the ESG score card. */
module DashboardWidgets {
  import opened Common

  datatype ScoreBand = Green | Yellow | Red

  /** `getScoreColor`'s thresholds. */
  function ScoreBandOf(score: int): (b: ScoreBand)
    ensures b == Green <==> score >= 80
    ensures b == Yellow <==> 60 <= score < 80
    ensures b == Red <==> score < 60
  {
    if score >= 80 then Green
    else if score >= 60 then Yellow
    else Red
  }

  function BandClasses(b: ScoreBand): string {
    match b
    case Green => "text-green-600 bg-green-100"
    case Yellow => "text-yellow-600 bg-yellow-100"
    case Red => "text-red-600 bg-red-100"
  }

  function ScoreColor(score: int): string {
    BandClasses(ScoreBandOf(score))
  }

  function BandRank(b: ScoreBand): nat {
    match b
    case Red => 0
    case Yellow => 1
    case Green => 2
  }

  /** A higher score never gets a worse colour. */
  lemma ScoreBandMonotone(s: int, t: int)
    requires s <= t
    ensures BandRank(ScoreBandOf(s)) <= BandRank(ScoreBandOf(t))
  {
  }

  /** The three bands have three different colourings. */
  lemma BandClassesDistinct(a: ScoreBand, b: ScoreBand)
    requires a != b
    ensures BandClasses(a) != BandClasses(b)
  {
    assert BandClasses(a)[5] != BandClasses(b)[5];
  }

  datatype ChangeType = Positive | Negative | Neutral

  function ChangeColor(t: ChangeType): string {
    match t
    case Positive => "text-green-600"
    case Negative => "text-red-600"
    case Neutral => "text-gray-600"
  }

  function Arrow(t: ChangeType): string {
    if t == Positive then "↗️" else if t == Negative then "↘️" else "→"
  }

  /** Colour and arrow each tell the three change types apart. */
  lemma ChangeMarkersDistinct(a: ChangeType, b: ChangeType)
    requires a != b
    ensures ChangeColor(a) != ChangeColor(b) && Arrow(a) != Arrow(b)
  {
    assert ChangeColor(a)[7] != ChangeColor(b)[7];
    assert Arrow(a)[0] != Arrow(b)[0];
  }

  datatype ChangeLine = ChangeLine(color: string, text: string)

  datatype CardView = CardView(title: string, value: string, icon: string,
                               changeLine: Option<ChangeLine>, descriptionLine: Option<string>)

  /** An analytics card: the change line and the description appear only
      when given; the change type defaults to neutral. */
  function AnalyticsCard(title: string, value: string, change: Option<string>,
                         changeType: Option<ChangeType>, icon: string, description: Option<string>)
    : (v: CardView)
    ensures v.changeLine.Some? <==> Truthy(change)
    ensures v.descriptionLine.Some? <==> Truthy(description)
    ensures v.changeLine.Some? ==>
      var t := changeType.GetOr(Neutral);
      v.changeLine.value == ChangeLine(ChangeColor(t), Arrow(t) + " " + change.value)
    ensures v.descriptionLine.Some? ==> v.descriptionLine.value == description.value
  {
    var t := changeType.GetOr(Neutral);
    CardView(title, value, icon,
             if Truthy(change) then Some(ChangeLine(ChangeColor(t), Arrow(t) + " " + change.value)) else None,
             if Truthy(description) then Some(description.value) else None)
  }

  datatype ScoreRow = ScoreRow(title: string, value: int, color: string)

  datatype EsgCard = EsgCard(overall: int, overallColor: string, rows: seq<ScoreRow>)

  /** The ESG score card: the overall score coloured by its band, then the
      three sub-scores in a fixed order. */
  function EsgScoreCard(environmental: int, social: int, governance: int, overall: int): (c: EsgCard)
    ensures c.overallColor == BandClasses(ScoreBandOf(overall))
    ensures |c.rows| == 3
    ensures c.rows[0].title == "Environmental" && c.rows[0].value == environmental
    ensures c.rows[1].title == "Social" && c.rows[1].value == social
    ensures c.rows[2].title == "Governance" && c.rows[2].value == governance
  {
    EsgCard(overall, ScoreColor(overall),
            [ScoreRow("Environmental", environmental, "bg-green-500"),
             ScoreRow("Social", social, "bg-blue-500"),
             ScoreRow("Governance", governance, "bg-purple-500")])
  }

  datatype ProjectStatus = Active | Completed | Pending

  function StatusName(s: ProjectStatus): string {
    match s
    case Active => "active"
    case Completed => "completed"
    case Pending => "pending"
  }

  /** The status badge colours, one per status. */
  const StatusColors: map<string, string> := map[
    "active" := "bg-green-100 text-green-800",
    "completed" := "bg-blue-100 text-blue-800",
    "pending" := "bg-yellow-100 text-yellow-800"
  ]

  /** Every status has a badge colour, and no other key has one. */
  lemma StatusColorsCoverStatuses()
    ensures StatusColors.Keys == set s: ProjectStatus :: StatusName(s)
  {
    assert StatusName(Active) in StatusColors && StatusName(Completed) in StatusColors
      && StatusName(Pending) in StatusColors;
  }

  /** Different statuses get different badges. */
  lemma StatusColorsDistinct(a: ProjectStatus, b: ProjectStatus)
    requires a != b
    ensures StatusColors[StatusName(a)] != StatusColors[StatusName(b)]
  {
    var ca, cb := StatusColors[StatusName(a)], StatusColors[StatusName(b)];
    assert ca[3] != cb[3];
  }

  datatype Project = Project(name: string, status: ProjectStatus, progress: int, description: string,
                             impact: string, dueDate: Option<string>)

  datatype ProjectCardView = ProjectCardView(name: string, badge: string, badgeText: string,
                                             progress: int, impact: string, dueLine: Option<string>)

  /** A project card: the badge coloured and labelled by the status, the
      progress bar's width, and the due line only when a date is given. */
  function ProjectCard(p: Project): (v: ProjectCardView)
    ensures v.badge in StatusColors.Values && v.badge == StatusColors[StatusName(p.status)]
    ensures v.badgeText == StatusName(p.status)
    ensures v.dueLine.Some? <==> Truthy(p.dueDate)
    ensures v.dueLine.Some? ==> v.dueLine.value == "Due: " + p.dueDate.value
  {
    assert StatusName(p.status) in StatusColors;
    ProjectCardView(p.name, StatusColors[StatusName(p.status)], StatusName(p.status),
                    p.progress, p.impact,
                    if Truthy(p.dueDate) then Some("Due: " + p.dueDate.value) else None)
  }
}
