/** The per-key expand flags kept by the airport panels (`expandedRunways` in
    components/AirportData.tsx, `expandedStations` in
    components/Airport/airportBlock.tsx): a record from key to flag in which an
    unset key reads as collapsed. */
module ExpandToggle {

  /** `!!flags[key]`: whether `key` is expanded. */
  predicate IsExpanded(flags: map<string, bool>, key: string) {
    key in flags && flags[key]
  }

  /** `{ ...flags, [key]: !flags[key] }` */
  function Toggled(flags: map<string, bool>, key: string): (r: map<string, bool>)
    ensures key in r && r[key] == !IsExpanded(flags, key)
    ensures forall k | k != key :: (k in r <==> k in flags) && (k in flags ==> r[k] == flags[k])
  {
    flags[key := !IsExpanded(flags, key)]
  }

  /** Toggling flips exactly the toggled key: every other key reads as before. */
  lemma ToggleFlipsOneKey(flags: map<string, bool>, key: string, other: string)
    ensures IsExpanded(Toggled(flags, key), key) == !IsExpanded(flags, key)
    ensures other != key ==> IsExpanded(Toggled(flags, key), other) == IsExpanded(flags, other)
  {
  }

  /** Toggling the same key twice restores every flag (the key itself may now be
      stored as an explicit `false` where it was unset). */
  lemma ToggleTwiceRestores(flags: map<string, bool>, key: string, k: string)
    ensures IsExpanded(Toggled(Toggled(flags, key), key), k) == IsExpanded(flags, k)
  {
  }

  /** Toggling different keys commutes. */
  lemma TogglesCommute(flags: map<string, bool>, a: string, b: string)
    requires a != b
    ensures Toggled(Toggled(flags, a), b) == Toggled(Toggled(flags, b), a)
  {
    UpdatesCommute(flags, a, !IsExpanded(flags, a), b, !IsExpanded(flags, b));
  }

  /** Updates of two different keys commute. */
  lemma UpdatesCommute(m: map<string, bool>, a: string, x: bool, b: string, y: bool)
    requires a != b
    ensures m[a := x][b := y] == m[b := y][a := x]
  {
    var l, r := m[a := x][b := y], m[b := y][a := x];
    assert l.Keys == r.Keys;
    forall k | k in l ensures l[k] == r[k] {
    }
  }
}
