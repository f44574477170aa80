/** Demand counts: how many seats are wanted for each direction, date and time. */
module Demand {
  import opened Wrappers

  /** A Go map of maps; it reads as 0 where it holds nothing. */
  type Count = map<string, map<string, map<string, int>>>

  datatype Slot = Slot(dir: string, date: string, time: string)

  function Lookup(c: Count, s: Slot): Option<int> {
    if s.dir in c && s.date in c[s.dir] && s.time in c[s.dir][s.date] then Some(c[s.dir][s.date][s.time]) else None
  }

  function Get(c: Count, s: Slot): int {
    var found := Lookup(c, s);
    if found.Some? then found.value else 0
  }
}
