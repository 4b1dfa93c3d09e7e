/** Per-room settings (src/lib/roomSettingsService.ts): an enabled flag and an
    optional cutoff date, kept in a client-local key-value cell. Dates are day
    numbers counted from 1970-01-01 (UTC); the current time is an instant in
    milliseconds since the same origin, passed in by the caller. */
module RoomSettingsService {
  import opened Basics

  datatype RoomSetting = RoomSetting(name: string, enabled: bool, bookingUntil: Option<int>)

  type RoomSettings = map<string, RoomSetting>

  const MsPerDay: int := 86_400_000

  /** The day number of the proleptic Gregorian date y-m-d, the day that
      `new Date("yyyy-mm-dd")` starts at midnight UTC. */
  function EpochDay(y: int, m: int, d: int): int
    requires 1 <= m <= 12
  {
    var y' := if m <= 2 then y - 1 else y;
    var era := y' / 400;
    var yoe := y' - era * 400;
    var mp := if m > 2 then m - 3 else m + 9;
    var doy := (153 * mp + 2) / 5 + d - 1;
    var doe := yoe * 365 + yoe / 4 - yoe / 100 + doy;
    era * 146097 + doe - 719468
  }

  /** The cutoff '2024-12-31' of the default settings. */
  const DefaultCutoff: int := EpochDay(2024, 12, 31)

  /** `defaultSettings`: the three rooms, all enabled until the default cutoff. */
  function DefaultSettings(): (s: RoomSettings)
    ensures s.Keys == {"room-1", "room-2", "room-3"}
    ensures forall r :: r in s ==> s[r].enabled && s[r].bookingUntil == Some(DefaultCutoff)
    ensures s["room-1"].name == "Room Uno" && s["room-2"].name == "Room Dos" && s["room-3"].name == "El Sofa"
  {
    map[
      "room-1" := RoomSetting("Room Uno", true, Some(DefaultCutoff)),
      "room-2" := RoomSetting("Room Dos", true, Some(DefaultCutoff)),
      "room-3" := RoomSetting("El Sofa", true, Some(DefaultCutoff))
    ]
  }

  /** What `localStorage.getItem('roomSettings')` yields, as far as loading is concerned:
      nothing (null or the empty string), text `JSON.parse` rejects, or an encoding of
      some settings. */
  datatype StoredSettings = Absent | Unparsable | Encoded(settings: RoomSettings)

  /** `loadRoomSettings`: the stored settings, or the defaults when nothing usable is stored. */
  function LoadRoomSettings(cell: StoredSettings): (s: RoomSettings)
    ensures cell.Encoded? ==> s == cell.settings
    ensures !cell.Encoded? ==> s == DefaultSettings()
  {
    match cell
    case Encoded(settings) => settings
    case _ => DefaultSettings()
  }

  /** The `localStorage` cell under the key 'roomSettings'. */
  class SettingsStorage {
    var cell: StoredSettings

    constructor ()
      ensures cell == Absent && LoadRoomSettings(cell) == DefaultSettings()
    {
      cell := Absent;
    }

    /** `saveRoomSettings`: what is loaded afterwards is exactly what was saved. */
    method Save(settings: RoomSettings)
      modifies this
      ensures cell == Encoded(settings)
      ensures LoadRoomSettings(cell) == settings
    {
      cell := Encoded(settings);
    }

    /** `loadRoomSettings` reading this cell. */
    method Load() returns (settings: RoomSettings)
      ensures cell.Encoded? ==> settings == cell.settings
      ensures !cell.Encoded? ==> settings == DefaultSettings()
    {
      settings := LoadRoomSettings(cell);
    }
  }

  /** `isRoomEnabled` as written: the room needs a settings entry with `enabled` set, and
      when it has a cutoff the current instant `now` must not be later than midnight
      (UTC) at the start of the cutoff day. */
  function IsRoomEnabled(settings: RoomSettings, roomId: string, now: int): (ok: bool)
    ensures roomId !in settings || !settings[roomId].enabled ==> !ok
    ensures (roomId in settings && settings[roomId].bookingUntil.Some?
             && now > settings[roomId].bookingUntil.value * MsPerDay) ==> !ok
    ensures (roomId in settings && settings[roomId].enabled
             && (settings[roomId].bookingUntil.None? || now <= settings[roomId].bookingUntil.value * MsPerDay)) ==> ok
  {
    if roomId !in settings || !settings[roomId].enabled then false
    else if settings[roomId].bookingUntil.Some? && now > settings[roomId].bookingUntil.value * MsPerDay then false
    else true
  }

  /** As written, a room with a cutoff is closed for all of its own cutoff day but
      its first millisecond: at noon of that day it already reads as disabled. */
  lemma ClosedDuringCutoffDay(settings: RoomSettings, roomId: string)
    requires roomId in settings && settings[roomId].enabled && settings[roomId].bookingUntil.Some?
    ensures IsRoomEnabled(settings, roomId, settings[roomId].bookingUntil.value * MsPerDay)
    ensures !IsRoomEnabled(settings, roomId, settings[roomId].bookingUntil.value * MsPerDay + MsPerDay / 2)
  {
  }

  /** The day (UTC) that contains instant `now`. */
  function DayOf(now: int): int {
    now / MsPerDay
  }

  /** The cutoff as a last bookable day: the room stays enabled through the whole
      cutoff day. */
  function IsRoomEnabledThroughCutoff(settings: RoomSettings, roomId: string, now: int): (ok: bool)
    ensures ok ==> roomId in settings && settings[roomId].enabled
  {
    && roomId in settings
    && settings[roomId].enabled
    && (settings[roomId].bookingUntil.None? || DayOf(now) <= settings[roomId].bookingUntil.value)
  }

  /** With the cutoff read as the last bookable day, an enabled room is open at every
      instant of its cutoff day and closed from the first instant of the next day on. */
  lemma OpenThroughCutoffDay(settings: RoomSettings, roomId: string, now: int)
    requires roomId in settings && settings[roomId].enabled && settings[roomId].bookingUntil.Some?
    ensures now < (settings[roomId].bookingUntil.value + 1) * MsPerDay ==> IsRoomEnabledThroughCutoff(settings, roomId, now)
    ensures now >= (settings[roomId].bookingUntil.value + 1) * MsPerDay ==> !IsRoomEnabledThroughCutoff(settings, roomId, now)
  {
  }

  /** The two readings agree except during the cutoff day itself: whenever the room is
      enabled as written it is enabled through the cutoff day too. */
  lemma AsWrittenImpliesThroughCutoff(settings: RoomSettings, roomId: string, now: int)
    ensures IsRoomEnabled(settings, roomId, now) ==> IsRoomEnabledThroughCutoff(settings, roomId, now)
  {
  }

  /** The defaults accept requests exactly for the three rooms and up to the default cutoff. */
  lemma DefaultsOpenUntilCutoff(roomId: string, now: int)
    ensures IsRoomEnabledThroughCutoff(DefaultSettings(), roomId, now)
            <==> roomId in {"room-1", "room-2", "room-3"} && DayOf(now) <= DefaultCutoff
  {
  }

  /** As written, the defaults accept requests for the three rooms only up to midnight
      UTC at the start of the default cutoff day. */
  lemma DefaultsOpenAsWritten(roomId: string, now: int)
    ensures IsRoomEnabled(DefaultSettings(), roomId, now)
            <==> roomId in {"room-1", "room-2", "room-3"} && now <= DefaultCutoff * MsPerDay
  {
  }
}
