/** The admin dashboard: colour classes of the activity feed and of the statistics cards. */
module AdminPanel {
  import Text

  /** The colour family each severity is drawn in; anything unrecognised, "info" included, is blue. */
  function SeverityHue(severity: string): (hue: string)
    ensures severity == "success" <==> hue == "green"
    ensures severity == "warning" <==> hue == "yellow"
    ensures severity == "error" <==> hue == "red"
    ensures severity !in {"success", "warning", "error"} <==> hue == "blue"
  {
    if severity == "success" then "green"
    else if severity == "warning" then "yellow"
    else if severity == "error" then "red"
    else "blue"
  }

  /** `getSeverityColor(severity)`: the text colour, shade 600, of the severity's hue. */
  function SeverityColor(severity: string): (cls: string)
    ensures cls == "text-" + SeverityHue(severity) + "-600"
  {
    match severity
    case "success" => "text-green-600"
    case "warning" => "text-yellow-600"
    case "error" => "text-red-600"
    case _ => "text-blue-600"
  }

  /** `getSeverityBg(severity)`: the background colour, shade 100, of the same hue. */
  function SeverityBg(severity: string): (cls: string)
    ensures cls == "bg-" + SeverityHue(severity) + "-100"
  {
    match severity
    case "success" => "bg-green-100"
    case "warning" => "bg-yellow-100"
    case "error" => "bg-red-100"
    case _ => "bg-blue-100"
  }

  /**
   * The activity dot: `getSeverityColor(severity).replace('text-', 'bg-')`,
   * which is the severity's hue as a background, shade 600.
   */
  function DotClass(severity: string): (cls: string)
    ensures cls == "bg-" + SeverityHue(severity) + "-600"
  {
    var color := SeverityColor(severity);
    assert Text.OccursAt(color, "text-", 0) by {
      assert color[..5] == "text-";
    }
    assert color[5..] == SeverityHue(severity) + "-600";
    Text.ReplaceFirst(color, "text-", "bg-")
  }

  /** The colour of a statistic's change line: green for "positive", red for anything else. */
  function ChangeColor(changeType: string): (cls: string)
    ensures cls == "text-green-600" <==> changeType == "positive"
    ensures cls == "text-red-600" <==> changeType != "positive"
  {
    if changeType == "positive" then "text-green-600" else "text-red-600"
  }
}
