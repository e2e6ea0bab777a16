/** The Bungee proxy's choice of a back-end server's protocol version: configured entries, versions detected
  * by pinging the servers, a configured default and, last, the lowest version the proxy supports. */
module ProtocolDetector {
  /** The configuration key of the fallback entry. */
  const DefaultKey: string := "default"

  /** The outcome of one server ping as the callback receives it. */
  datatype PingOutcome =
    | PingError                       // the callback's throwable is set
    | NoPing                          // no ping object
    | NoVersion                       // a ping without version information
    | Pinged(protocol: int)           // a ping reporting this protocol number

  /** `getProtocolId`: the configured entry for the server, else the detected id, else the configured
    * default, else the lowest supported version (which the proxy's version provider reports). */
  function ProtocolId(servers: map<string, int>, detected: map<string, int>, lowest: int, name: string): (r: int)
    ensures name in servers ==> r == servers[name]
    ensures name !in servers && name in detected ==> r == detected[name]
    ensures name !in servers && name !in detected && DefaultKey in servers ==> r == servers[DefaultKey]
    ensures name !in servers && name !in detected && DefaultKey !in servers ==> r == lowest
    ensures r == lowest || r in servers.Values || r in detected.Values
  {
    if name in servers then servers[name]
    else if name in detected then detected[name]
    else if DefaultKey in servers then servers[DefaultKey]
    else lowest
  }

  /** Whether a ping outcome is stored: no error, a version present, and a positive protocol number. */
  predicate Stored(outcome: PingOutcome) {
    outcome.Pinged? && outcome.protocol > 0
  }

  /** The detected ids and the server configuration of the proxy. `saves` counts the configuration saves. */
  class ProtocolDetectorService {
    var detected: map<string, int>
    var servers: map<string, int>
    var saves: nat

    constructor (configured: map<string, int>)
      ensures detected == map[] && servers == configured && saves == 0
    {
      detected := map[];
      servers := configured;
      saves := 0;
    }

    /** The ping callback for server `key`. A stored result is recorded as detected; when the configuration
      * asks for ping results to be saved, the configured entry is overwritten and the configuration saved,
      * unless it already holds the same number. */
    method Done(key: string, outcome: PingOutcome, pingSave: bool)
      modifies this
      ensures detected == (if Stored(outcome) then old(detected)[key := outcome.protocol] else old(detected))
      ensures servers == (if Stored(outcome) && pingSave then old(servers)[key := outcome.protocol] else old(servers))
      ensures saves == old(saves) + (if Stored(outcome) && pingSave && !(key in old(servers) && old(servers)[key] == outcome.protocol) then 1 else 0)
    {
      if outcome.Pinged? {
        if outcome.protocol > 0 {
          detected := detected[key := outcome.protocol];
          if pingSave {
            if key in servers && servers[key] == outcome.protocol {
              return;
            }
            servers := servers[key := outcome.protocol];
            saves := saves + 1;
          }
        }
      }
    }

    /** `getDetectedIds`: a copy of the detected ids (a map value, so later changes to either side are
      * independent of the other). */
    method GetDetectedIds() returns (copy: map<string, int>)
      ensures copy == detected
    {
      copy := detected;
    }
  }

  /** After a stored ping for a server with no configured entry, the server's protocol is the pinged one
    * whether or not the result was saved to the configuration. */
  lemma StoredPingDecides(servers: map<string, int>, detected: map<string, int>, lowest: int, key: string, outcome: PingOutcome, pingSave: bool)
    requires Stored(outcome) && key !in servers
    ensures ProtocolId(if pingSave then servers[key := outcome.protocol] else servers, detected[key := outcome.protocol], lowest, key)
      == outcome.protocol
  {
  }

  /** A configured entry wins over every detected id. */
  lemma ConfiguredWins(servers: map<string, int>, detected: map<string, int>, lowest: int, name: string, p: int)
    requires name in servers
    ensures ProtocolId(servers, detected[name := p], lowest, name) == servers[name]
  {
  }
}
