/**
 * The read/write probe run once per tick (`executeTest`): create a client,
 * write a fresh marker under the configured key, read it back, compare it,
 * delete the key. The store itself is not modelled; the outcome of every
 * client call (and the value the read returns) is an input.
 */
module Probe {
  import opened Wrappers

  /** Why a probe failed, one constructor per early return of `executeTest`. */
  datatype ProbeError =
    | ClientError      // the store client could not be created
    | WriteError       // writing the marker failed
    | ReadError        // reading the key back failed
    | ValueMismatch    // no "value" field, or it differs from the marker
    | DeleteError      // removing the key failed

  /** A request the probe sends to the store, with the path it uses. */
  datatype StoreCall =
    | Write(path: string, value: string)
    | Read(path: string)
    | Delete(path: string)

  /** What the store does when asked: the outcome of each client call. */
  datatype StoreOutcomes = StoreOutcomes(
    clientOk: bool,
    writeOk: bool,
    readOk: bool,
    readValue: Option<string>,   // the "value" field of the secret read back
    deleteOk: bool)

  /** `strings.TrimLeft(key, "/")`: drops every leading '/' and nothing else. */
  function TrimLeadingSlashes(s: string): (r: string)
    ensures |r| <= |s| && r == s[|s| - |r|..]
    ensures r == [] || r[0] != '/'
    ensures forall i :: 0 <= i < |s| - |r| ==> s[i] == '/'
  {
    if s != [] && s[0] == '/' then TrimLeadingSlashes(s[1..]) else s
  }

  /** The three store requests of a complete probe, in the order they are made. */
  function FullChain(path: string, marker: string): seq<StoreCall>
  {
    [Write(path, marker), Read(path), Delete(path)]
  }

  /** The probe passes exactly when every step succeeds and the marker is read back. */
  predicate ProbeSucceeds(o: StoreOutcomes, marker: string)
  {
    o.clientOk && o.writeOk && o.readOk && o.readValue == Some(marker) && o.deleteOk
  }

  /**
   * `executeTest`: the step chain stops at the first failing step. The
   * requests made are a prefix of write, read, delete on the key with its
   * leading slashes removed, and the error names the step that failed.
   */
  method ExecuteTest(key: string, marker: string, o: StoreOutcomes)
    returns (err: Option<ProbeError>, calls: seq<StoreCall>)
    ensures err == None <==> ProbeSucceeds(o, marker)
    ensures err == Some(ClientError) <==> !o.clientOk
    ensures err == Some(WriteError) <==> o.clientOk && !o.writeOk
    ensures err == Some(ReadError) <==> o.clientOk && o.writeOk && !o.readOk
    ensures err == Some(ValueMismatch) <==>
              o.clientOk && o.writeOk && o.readOk && o.readValue != Some(marker)
    ensures err == Some(DeleteError) <==>
              o.clientOk && o.writeOk && o.readOk && o.readValue == Some(marker) && !o.deleteOk
    ensures |calls| <= 3
    ensures forall i :: 0 <= i < |calls| ==> calls[i] == FullChain(TrimLeadingSlashes(key), marker)[i]
    ensures |calls| == 0 <==> err == Some(ClientError)
    ensures |calls| == 1 <==> err == Some(WriteError)
    ensures |calls| == 2 <==> err == Some(ReadError) || err == Some(ValueMismatch)
    ensures |calls| == 3 <==> err == None || err == Some(DeleteError)
  {
    calls := [];
    if !o.clientOk {
      return Some(ClientError), calls;
    }
    var path := TrimLeadingSlashes(key);
    calls := [Write(path, marker)];
    if !o.writeOk {
      return Some(WriteError), calls;
    }
    calls := [Write(path, marker), Read(path)];
    if !o.readOk {
      return Some(ReadError), calls;
    }
    if o.readValue.None? || o.readValue.value != marker {
      return Some(ValueMismatch), calls;
    }
    calls := [Write(path, marker), Read(path), Delete(path)];
    if !o.deleteOk {
      return Some(DeleteError), calls;
    }
    err := None;
  }
}
