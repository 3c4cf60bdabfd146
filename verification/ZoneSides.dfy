/** The two sides of a zone, and how its entry points read a side from text. */
module ZoneSides {
  import opened Options
  import opened PyText

  datatype Side = LONG | SHORT

  /** A side is read in any case; any other text is no side. */
  function ReadSide(text: string): Option<Side> {
    var up := Upper(text);
    if up == "LONG" then Some(LONG) else if up == "SHORT" then Some(SHORT) else None
  }

  /** Where the zone table is written, text that is no side means LONG. */
  function SideOrLong(text: string): Side {
    if ReadSide(text) == Some(SHORT) then SHORT else LONG
  }
}
