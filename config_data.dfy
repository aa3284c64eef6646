/**
 * The location cache: one record persisted in watch flash, a RAM copy of
 * it and the timezone derived from it. The flash read and write results
 * and the clock's `time(NULL)` are inputs of the operations.
 *
 * The state is given as a value (`Config`) and the operations as functions
 * on it; `ConfigStore` holds the module's two static variables and its
 * methods are proved to follow those functions.
 */
module ConfigData {
  import opened CStd

  /** Layout version of the persisted record. */
  const CurVersion: int := 1

  /** Size of the packed record: two 16-bit fields, two floats, a 32-bit offset and a 32-bit time_t. */
  const RecordSize: int := 20

  /** The persisted record. A zero `timeLastUpdate` marks the cache as holding no location. */
  datatype LocationRecord = LocationRecord(
    version: int, reserved: int, latitude: real, longitude: real,
    utcOffset: int, timeLastUpdate: int)

  /** The record after `memset(..., 0, ...)`. */
  const Zeroed: LocationRecord := LocationRecord(0, 0, 0.0, 0.0, 0, 0)

  /** The module state: the cached record and the timezone in hours. */
  datatype Config = Config(cache: LocationRecord, tzHours: real)

  /** The state at program start: both statics zero. */
  const Initial: Config := Config(Zeroed, 0.0)

  /** What `config_data_location_get` hands back when location data is available. */
  datatype Location = Location(latitude: real, longitude: real, utcOffset: int, lastUpdate: int)

  /**
   * compute_tz_in_hours: the persisted offset is seconds added to local time
   * to obtain UTC; the timezone is the opposite, in hours.
   */
  function TzInHours(utcOffset: int): (hours: real)
    ensures hours * 3600.0 == -(utcOffset as real)
    ensures utcOffset > 0 <==> hours < 0.0
  {
    -((utcOffset as real) / 3600.0)
  }

  predicate Available(s: Config)
  {
    s.cache.timeLastUpdate != 0
  }

  /** config_data_location_get: every field when available, nothing otherwise. */
  function Get(s: Config): (r: Option<Location>)
    ensures r.Some? <==> Available(s)
    ensures r.Some? ==> r.value == Location(s.cache.latitude, s.cache.longitude,
                                            s.cache.utcOffset, s.cache.timeLastUpdate)
  {
    if s.cache.timeLastUpdate == 0 then None
    else Some(Location(s.cache.latitude, s.cache.longitude, s.cache.utcOffset, s.cache.timeLastUpdate))
  }

  /** locations_equiv: the geolocation parts (latitude, longitude, offset) match. */
  predicate LocationsEquiv(a: LocationRecord, b: LocationRecord)
  {
    a.latitude == b.latitude && a.longitude == b.longitude && a.utcOffset == b.utcOffset
  }

  /** config_data_is_different: not (available and equal on all three values). */
  function IsDifferent(s: Config, latitude: real, longitude: real, utcOffset: int): bool
  {
    match Get(s)
    case None => true
    case Some(loc) => !(latitude == loc.latitude && longitude == loc.longitude && utcOffset == loc.utcOffset)
  }

  /** config_data_init: a short read or a foreign version zeroes the cache; otherwise rederive tz. */
  function AfterInit(s: Config, bytesRead: int, stored: LocationRecord): Config
  {
    if bytesRead < RecordSize || stored.version != CurVersion then Config(Zeroed, s.tzHours)
    else Config(stored, TzInHours(stored.utcOffset))
  }

  /** The record config_data_location_set builds and tries to persist. */
  function NewRecord(latitude: real, longitude: real, utcOffset: int, now: int): LocationRecord
  {
    LocationRecord(CurVersion, 0, latitude, longitude, utcOffset, now)
  }

  /**
   * config_data_location_set: returns the new state and the result. An equal
   * triple is accepted without a write; otherwise the cache changes only when
   * the whole record was written.
   */
  function AfterSet(s: Config, latitude: real, longitude: real, utcOffset: int,
                    now: int, bytesWritten: int): (Config, bool)
  {
    var rec := NewRecord(latitude, longitude, utcOffset, now);
    if LocationsEquiv(rec, s.cache) then (s, true)
    else if bytesWritten == RecordSize then (Config(rec, TzInHours(utcOffset)), true)
    else (s, false)
  }

  /** Whether config_data_location_set calls persist_write_data at all. */
  predicate SetWrites(s: Config, latitude: real, longitude: real, utcOffset: int)
  {
    !LocationsEquiv(NewRecord(latitude, longitude, utcOffset, 0), s.cache)
  }

  /** config_data_location_erase: the cache is zeroed; the timezone is left as it was. */
  function AfterErase(s: Config): Config
  {
    Config(Zeroed, s.tzHours)
  }

  // ---------------------------------------------------------------------
  // Properties of the state functions.

  /** Availability is exactly a non-zero update time. */
  lemma AvailableIffUpdated(s: Config)
    ensures Available(s) <==> s.cache.timeLastUpdate != 0
    ensures Get(s) == None <==> !Available(s)
  {
  }

  /** is_different is false exactly when the cache is valid and all three values are equal. */
  lemma IsDifferentFalseIff(s: Config, latitude: real, longitude: real, utcOffset: int)
    ensures !IsDifferent(s, latitude, longitude, utcOffset) <==>
            (Available(s) && s.cache.latitude == latitude && s.cache.longitude == longitude
             && s.cache.utcOffset == utcOffset)
  {
  }

  /**
   * Setting the cached triple again is accepted, writes nothing and leaves
   * the whole state, update time included, unchanged. This holds of the
   * zeroed cache too: setting (0, 0, 0) there leaves data unavailable.
   */
  lemma SetSameIsNoOp(s: Config, now: int, bytesWritten: int)
    ensures AfterSet(s, s.cache.latitude, s.cache.longitude, s.cache.utcOffset, now, bytesWritten) == (s, true)
    ensures !SetWrites(s, s.cache.latitude, s.cache.longitude, s.cache.utcOffset)
    ensures !Available(AfterSet(Initial, 0.0, 0.0, 0, now, bytesWritten).0)
  {
  }

  /**
   * A set that writes the full record replaces the cache with version 1,
   * reserved 0, the triple and the current time, and the timezone with
   * the negated offset in hours.
   */
  lemma SetWritten(s: Config, latitude: real, longitude: real, utcOffset: int, now: int)
    requires SetWrites(s, latitude, longitude, utcOffset)
    ensures AfterSet(s, latitude, longitude, utcOffset, now, RecordSize)
            == (Config(LocationRecord(1, 0, latitude, longitude, utcOffset, now), -((utcOffset as real) / 3600.0)), true)
  {
  }

  /** A failed write returns false and leaves cache and timezone unchanged. */
  lemma SetWriteFailed(s: Config, latitude: real, longitude: real, utcOffset: int, now: int, bytesWritten: int)
    requires SetWrites(s, latitude, longitude, utcOffset) && bytesWritten != RecordSize
    ensures AfterSet(s, latitude, longitude, utcOffset, now, bytesWritten) == (s, false)
  {
  }

  /**
   * Set and is_different are partners: after a set that succeeded and left
   * data available, the same triple is no longer "different". Data is
   * available afterwards when the set wrote a record stamped with a
   * non-zero time, or when it was already available with that triple.
   */
  lemma SetThenNotDifferent(s: Config, latitude: real, longitude: real, utcOffset: int,
                            now: int, bytesWritten: int)
    ensures var (s', ok) := AfterSet(s, latitude, longitude, utcOffset, now, bytesWritten);
            (ok && Available(s') ==> !IsDifferent(s', latitude, longitude, utcOffset)) &&
            (ok && SetWrites(s, latitude, longitude, utcOffset) ==> (Available(s') <==> now != 0)) &&
            (!SetWrites(s, latitude, longitude, utcOffset) ==> (Available(s') <==> Available(s)))
  {
  }

  /** Setting twice with the same values: the second call is accepted and changes nothing. */
  lemma SetIdempotent(s: Config, latitude: real, longitude: real, utcOffset: int,
                      now: int, now': int, bytesWritten: int, bytesWritten': int)
    ensures var (s1, ok1) := AfterSet(s, latitude, longitude, utcOffset, now, bytesWritten);
            ok1 ==> AfterSet(s1, latitude, longitude, utcOffset, now', bytesWritten') == (s1, true)
  {
  }

  /** Init with a short read or a wrong version leaves no data and keeps tz; otherwise tz follows the record. */
  lemma InitOutcome(s: Config, bytesRead: int, stored: LocationRecord)
    ensures bytesRead < RecordSize || stored.version != CurVersion ==>
            !Available(AfterInit(s, bytesRead, stored)) && AfterInit(s, bytesRead, stored).tzHours == s.tzHours
    ensures bytesRead >= RecordSize && stored.version == CurVersion ==>
            AfterInit(s, bytesRead, stored).cache == stored &&
            AfterInit(s, bytesRead, stored).tzHours * 3600.0 == -(stored.utcOffset as real)
  {
  }

  /** Erase leaves no data available, and every triple is then "different". */
  lemma EraseClears(s: Config, latitude: real, longitude: real, utcOffset: int)
    ensures !Available(AfterErase(s))
    ensures IsDifferent(AfterErase(s), latitude, longitude, utcOffset)
  {
  }

  /** The two statics of ConfigData.c. */
  class ConfigStore {
    var cache: LocationRecord
    var tzHours: real

    function State(): Config
      reads this
    {
      Config(cache, tzHours)
    }

    constructor ()
      ensures State() == Initial
    {
      cache, tzHours := Zeroed, 0.0;
    }

    /** config_data_init, given what persist_read_data returned and the bytes it read. */
    method Init(bytesRead: int, stored: LocationRecord)
      modifies this
      ensures State() == AfterInit(old(State()), bytesRead, stored)
    {
      if bytesRead < RecordSize || stored.version != CurVersion {
        cache := Zeroed;
      } else {
        cache := stored;
        tzHours := TzInHours(cache.utcOffset);
      }
    }

    function LocationAvail(): (r: bool)
      reads this
      ensures r <==> Available(State())
    {
      cache.timeLastUpdate != 0
    }

    function LocationGet(): (r: Option<Location>)
      reads this
      ensures r == Get(State())
    {
      if cache.timeLastUpdate == 0 then None
      else Some(Location(cache.latitude, cache.longitude, cache.utcOffset, cache.timeLastUpdate))
    }

    /** config_data_get_latitude: the cached value, valid or not. */
    function Latitude(): real reads this { cache.latitude }

    /** config_data_get_longitude: the cached value, valid or not. */
    function Longitude(): real reads this { cache.longitude }

    /** config_data_get_tz_in_hours. */
    function TzHours(): real reads this { tzHours }

    function Differs(latitude: real, longitude: real, utcOffset: int): (r: bool)
      reads this
      ensures r == IsDifferent(State(), latitude, longitude, utcOffset)
    {
      match LocationGet()
      case None => true
      case Some(loc) => !(latitude == loc.latitude && longitude == loc.longitude && utcOffset == loc.utcOffset)
    }

    /** config_data_location_set, given time(NULL) and what persist_write_data returned. */
    method LocationSet(latitude: real, longitude: real, utcOffset: int, now: int, bytesWritten: int)
      returns (ok: bool)
      modifies this
      ensures (State(), ok) == AfterSet(old(State()), latitude, longitude, utcOffset, now, bytesWritten)
    {
      var newLocation := NewRecord(latitude, longitude, utcOffset, now);
      if LocationsEquiv(newLocation, cache) {
        return true;
      }
      if bytesWritten == RecordSize {
        cache := newLocation;
        tzHours := TzInHours(cache.utcOffset);
        return true;
      }
      return false;
    }

    method LocationErase()
      modifies this
      ensures State() == AfterErase(old(State()))
    {
      cache := Zeroed;
    }
  }
}
