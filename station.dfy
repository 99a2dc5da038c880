/**
 * The radio station record every component passes around, and the JSON
 * codec that turns it into the text stored in both SQLite tables.
 */
module Stations {
  import opened Util

  /** A station as the Radio Browser directory describes it; every field has Kotlin's default. */
  datatype RadioStation = RadioStation(
    stationUuid: string,
    name: string,
    url: string,
    urlResolved: string,
    homepage: string,
    country: string,
    state: string,
    tags: string,
    bitrate: int,
    votes: int,
    codec: string,
    language: string
  )

  /** `RadioStation()`: every string empty, bitrate and votes 0. */
  function DefaultStation(): (s: RadioStation)
    ensures s.stationUuid == "" && s.name == "" && s.url == "" && s.urlResolved == "" && s.homepage == ""
    ensures s.country == "" && s.state == "" && s.tags == "" && s.codec == "" && s.language == ""
    ensures s.bitrate == 0 && s.votes == 0
  {
    RadioStation("", "", "", "", "", "", "", "", 0, 0, "", "")
  }

  /**
   * The station the play command builds for a raw stream link:
   * `RadioStation(name = "Custom Stream", url = input, urlResolved = input)`.
   */
  function CustomStream(link: string): (s: RadioStation)
    ensures s.name == "Custom Stream" && s.url == link && s.urlResolved == link
    ensures s.stationUuid == ""
  {
    DefaultStation().(name := "Custom Stream", url := link, urlResolved := link)
  }

  /** `station.urlResolved.ifEmpty { station.url }`: the stream link the player is given. */
  function StreamUrl(s: RadioStation): (u: string)
    ensures s.urlResolved != "" ==> u == s.urlResolved
    ensures s.urlResolved == "" ==> u == s.url
    ensures u == "" <==> s.urlResolved == "" && s.url == ""
  {
    if s.urlResolved != "" then s.urlResolved else s.url
  }

  /**
   * kotlinx.serialization's JSON encoding of a station, as two partial
   * functions: None stands for the exception the library throws.
   */
  datatype Codec = Codec(encode: RadioStation -> Option<string>, decode: string -> Option<RadioStation>)
}
