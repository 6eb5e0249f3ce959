/** The cross-sheet hyperlinks: every overview row below the header links
    its title cell to the details row with the same number. */
module Links {
  import opened Wrappers
  import opened Strings
  import opened Render

  const DetailsPrefix := "#Details!A"

  /** The hyperlink set on cell B of overview row `row`. */
  datatype Link = Link(row: nat, target: string)

  /** The details-sheet row a `#Details!A<n>` target names, if it is one. */
  function DetailsRowOf(target: string): Option<nat>
  {
    if |target| > |DetailsPrefix| && target[..|DetailsPrefix|] == DetailsPrefix
    then ParseDecimal(target[|DetailsPrefix|..])
    else None
  }

  /** `'#Details!A' + str(n)` names details row `n`. */
  lemma DetailsTarget(n: nat)
    ensures DetailsRowOf(DetailsPrefix + Decimal(n)) == Some(n)
  {
    var t := DetailsPrefix + Decimal(n);
    assert t[..|DetailsPrefix|] == DetailsPrefix;
    assert t[|DetailsPrefix|..] == Decimal(n);
    ParseDecimalRoundTrip(n);
  }

  /** Lines 226-231: a counter starting at 1 goes up once per overview row
      from row 2 to the last, and that row's link targets details row
      `counter`. */
  method Hyperlinks(overview: Sheet) returns (links: seq<Link>)
    ensures |links| == if |overview| > 0 then |overview| - 1 else 0
    ensures forall i :: 0 <= i < |links| ==> links[i].row == i + 2
    ensures forall i :: 0 <= i < |links| ==> links[i].target == DetailsPrefix + Decimal(links[i].row)
    ensures forall i :: 0 <= i < |links| ==> DetailsRowOf(links[i].target) == Some(links[i].row)
  {
    var row := 1;
    links := [];
    var sheetRow := 2;
    while sheetRow <= |overview|
      invariant 2 <= sheetRow <= (if |overview| > 0 then |overview| else 1) + 1
      invariant row == sheetRow - 1
      invariant |links| == sheetRow - 2
      invariant forall i :: 0 <= i < |links| ==> links[i].row == i + 2
      invariant forall i :: 0 <= i < |links| ==> links[i].target == DetailsPrefix + Decimal(links[i].row)
      invariant forall i :: 0 <= i < |links| ==> DetailsRowOf(links[i].target) == Some(links[i].row)
    {
      row := row + 1;
      var link := DetailsPrefix + Decimal(row);
      DetailsTarget(row);
      links := links + [Link(sheetRow, link)];
      sheetRow := sheetRow + 1;
    }
  }
}
