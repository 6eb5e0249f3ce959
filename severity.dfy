/** The fixed table of severity tiers: each tier id 0..4 has a display name
    and a colour (RGB hex) used by the overview sheet. */
module Severity {
  import opened Wrappers

  datatype Level = Level(name: string, color: string)

  /** The tiers that get overview rows, in the order the renderer walks them. */
  const RenderedTiers: seq<int> := [4, 3, 2, 1]

  const HexDigits := "0123456789ABCDEF"

  /** Looks a tier id up in the table; ids outside 0..4 are not in it. */
  function Lookup(id: int): (r: Option<Level>)
    ensures r.Some? <==> 0 <= id <= 4
    ensures r.Some? ==> |r.value.name| > 0 && |r.value.color| == 6
    ensures r.Some? ==> forall k :: 0 <= k < 6 ==> r.value.color[k] in HexDigits
  {
    match id
    case 0 => Some(Level("Informational", "67A64D"))
    case 1 => Some(Level("Low", "FFFF00"))
    case 2 => Some(Level("Medium", "F8C346"))
    case 3 => Some(Level("High", "FF0000"))
    case 4 => Some(Level("Critical", "8B0000"))
    case _ => None
  }

  /** The display name of a tier that is in the table. */
  function Name(id: int): (r: string)
    requires 0 <= id <= 4
  {
    Lookup(id).value.name
  }

  /** Different tiers have different names, so a severity cell identifies
      its tier. */
  lemma NameInjective(a: int, b: int)
    requires 0 <= a <= 4 && 0 <= b <= 4 && a != b
    ensures Name(a) != Name(b)
  {
    assert Name(0) == "Informational" && Name(1) == "Low" && Name(2) == "Medium";
    assert Name(3) == "High" && Name(4) == "Critical";
    assert "Informational"[0] == 'I' && "Low"[0] == 'L' && "Medium"[0] == 'M';
    assert "High"[0] == 'H' && "Critical"[0] == 'C';
  }
}
