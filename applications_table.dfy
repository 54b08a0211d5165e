/** The two computed cells of the recent-applications table: the colour of a status badge and
    the width of the stage progress bar. */
module ApplicationsTable {

  /** The statuses the table knows, in pipeline order (stage 1 to stage 5). */
  const NamedStatuses: seq<string> := ["Applied", "Screening", "Interview", "Assessment", "Offer"]

  /** The badge classes of a status the table does not know. */
  const Gray: string := "bg-gray-100 text-gray-800"

  /** The number of stages a candidate goes through. */
  const StageCount: int := 5

  /** The badge classes for a status: a hue of its own for each named status, gray otherwise. */
  function StatusColor(status: string): (c: string)
    ensures status == "Applied" ==> c == "bg-blue-100 text-blue-800"
    ensures status == "Screening" ==> c == "bg-green-100 text-green-800"
    ensures status == "Interview" ==> c == "bg-amber-100 text-amber-800"
    ensures status == "Assessment" ==> c == "bg-indigo-100 text-indigo-800"
    ensures status == "Offer" ==> c == "bg-purple-100 text-purple-800"
    ensures c == Gray <==> status !in NamedStatuses
  {
    match status
    case "Applied" => "bg-blue-100 text-blue-800"
    case "Screening" => "bg-green-100 text-green-800"
    case "Interview" => "bg-amber-100 text-amber-800"
    case "Assessment" => "bg-indigo-100 text-indigo-800"
    case "Offer" => "bg-purple-100 text-purple-800"
    case _ => Gray
  }

  /** Two different named statuses never share a badge. */
  lemma StatusColorsDistinct(s: string, t: string)
    requires s in NamedStatuses && t in NamedStatuses && s != t
    ensures StatusColor(s) != StatusColor(t)
  {
    // the five badges already differ in their fourth character, the first letter of the hue
    var c, d := StatusColor(s), StatusColor(t);
    assert |c| > 3 && |d| > 3;
    assert c[3] != d[3];
  }

  /** The width of the stage progress bar, in percent: `stage / 5 * 100`. */
  function StageWidth(stage: int): (w: real)
    ensures 0 <= stage <= StageCount ==> 0.0 <= w <= 100.0
    ensures w == 0.0 <==> stage == 0
    ensures w == 100.0 <==> stage == StageCount
  {
    stage as real / StageCount as real * 100.0
  }

  /** A later stage always fills more of the bar, by 20 percent per stage. */
  lemma StageWidthMonotone(a: int, b: int)
    ensures StageWidth(b) - StageWidth(a) == 20.0 * (b - a) as real
    ensures a < b ==> StageWidth(a) < StageWidth(b)
  {
  }
}
