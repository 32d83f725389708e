/** The dashboard (components/Dashboard.tsx): the once-a-day health tip kept
    in browser storage, and the greeting. */
module Dashboard {
  import opened Types
  import opened JsStrings

  /** What reading the two storage keys gives: an exception, or the stored
      tip and date (`None` for a missing key). */
  datatype StoredTip = StorageUnreadable | Stored(tip: Option<string>, date: Option<string>)

  /** `loadTip`'s test: the stored tip is used only when it is a non-empty
      string other than "undefined" and was stored today. */
  predicate CacheHit(s: StoredTip, today: string)
  {
    && s.Stored?
    && s.tip.Some? && s.tip.value != "" && s.tip.value != "undefined"
    && s.date == Some(today)
  }

  /** One `localStorage.setItem`. */
  datatype StorageWrite = StorageWrite(key: string, value: string)

  /** The writes `fetchTip` attempts, in order. */
  function TipWrites(tip: string, today: string): seq<StorageWrite>
  {
    [StorageWrite("healthTip", tip), StorageWrite("healthTipDate", today)]
  }

  /** Reading back what a fetch stored: the tip and date written on day
      `today` hit the cache that same day exactly when the tip is a real one
      (non-empty and not "undefined"), and never on another day. */
  lemma CacheRoundTrip(fetched: string, today: string, later: string)
    ensures
      var w := TipWrites(fetched, today);
      && w[0].key == "healthTip" && w[1].key == "healthTipDate"
      && (CacheHit(Stored(Some(w[0].value), Some(w[1].value)), today) <==> fetched != "" && fetched != "undefined")
      && (later != today ==> !CacheHit(Stored(Some(w[0].value), Some(w[1].value)), later))
  {
  }

  const LoadingTipText := "Loading health tip..."

  /** The greeting's name: the profile name up to its first space. */
  function FirstName(name: string): (r: string)
    ensures r <= name && ' ' !in r
    ensures ' ' !in name ==> r == name
    ensures ' ' in name ==> name[|r|] == ' '
  {
    BeforeFirst(name, ' ')
  }

  /** "Welcome, <first name>!": the name shown is a prefix of the profile
      name holding no space, the whole name when it has no space. */
  function Greeting(name: string): (g: string)
    ensures "Welcome, " <= g && g[|g| - 1] == '!'
    ensures g[9..|g| - 1] <= name && ' ' !in g[9..|g| - 1]
    ensures ' ' !in name ==> g == "Welcome, " + name + "!"
    ensures ' ' in name ==> name[|g| - 10] == ' '
  {
    var first := FirstName(name);
    assert ("Welcome, " + first + "!")[9..|first| + 9] == first;
    "Welcome, " + first + "!"
  }

  /** The tip card's state. */
  class TipCard {
    var healthTip: string

    constructor ()
      ensures healthTip == LoadingTipText
    {
      healthTip := LoadingTipText;
    }

    /** The mount effect. `fetched` is the tip the service returns and
        `writesBeforeFailure` how many `setItem` calls succeed before storage
        raises (2 or more: none raises). A cache hit shows the stored tip and
        writes nothing. Any other case, a storage read error included, shows
        the fetched tip first, then writes tip and date until a write
        raises, the tip staying on screen. */
    method LoadTip(stored: StoredTip, today: string, fetched: string, writesBeforeFailure: nat)
      returns (didFetch: bool, writes: seq<StorageWrite>)
      modifies this`healthTip
      ensures didFetch <==> !CacheHit(stored, today)
      ensures !didFetch ==> healthTip == stored.tip.value && writes == []
      ensures didFetch ==> healthTip == fetched
      ensures didFetch ==>
        writes == TipWrites(fetched, today)[..if writesBeforeFailure < 2 then writesBeforeFailure else 2]
    {
      if CacheHit(stored, today) {
        healthTip := stored.tip.value;
        return false, [];
      }
      didFetch := true;
      healthTip := fetched;
      writes := [];
      if writesBeforeFailure >= 1 {
        writes := writes + [StorageWrite("healthTip", fetched)];
        if writesBeforeFailure >= 2 {
          writes := writes + [StorageWrite("healthTipDate", today)];
        }
      }
    }
  }
}
