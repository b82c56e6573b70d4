/** What the browser supplies and the dashboard only consumes: date parsing,
    the local calendar, date formatting, collation and JSON. */
module Platform {
  import opened Js

  /** A calendar day; `month` counts from 0 as `Date.prototype.getMonth` does. */
  datatype CalDate = CalDate(year: int, month: int, day: int)

  /** The host's behaviour, passed to the code that depends on it.
      - parseDate(s): `new Date(s).getTime()` in milliseconds, None for NaN
      - localDate(t): the local calendar day of instant t (`toDateString`)
      - isoDate(t): `new Date(t).toISOString().split('T')[0]`
      - localClock(t): `new Date(t).toTimeString().slice(0, 5)`
      - collationKey(s): the sort key `localeCompare` orders strings by
      - stringify(v): `JSON.stringify(v)`
      - parseJson(s): `JSON.parse(s)`, None when it throws */
  datatype Host = Host(
    parseDate: string -> Option<int>,
    localDate: int -> CalDate,
    isoDate: int -> string,
    localClock: int -> string,
    collationKey: string -> seq<int>,
    stringify: JsValue -> string,
    parseJson: string -> Option<JsValue>)
}
