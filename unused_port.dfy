/**
 * util/unused_port: FindUnusedPort probes up to ten TCP ports, starting
 * where the previous successful search left off, skipping the ephemeral
 * range (wrapping back to the first user port), and remembers the port
 * after the one it found.
 */
module UnusedPort {
  import opened Status

  const FIRST_USER_PORT: int := 1024
  const MAX_TRIES: nat := 10

  /** The two numbers of the kernel's local port range file, when it can be read. */
  type PortRange = Option<(int, int)>

  /** Whether a socket can bind and listen on a kernel port number: the host's sockets, as a parameter. */
  type Bindable = int -> bool

  const PortRangeError: Status := ResourceExhaustedError("Unable to get ephemeral port range.")
  const NoUnusedPortError: Status := ResourceExhaustedError("Unable to find an unused TCP port.")

  // ---------------------------------------------------------------------
  // Byte order

  /** Storing an int into the 16-bit `sin_port` keeps it modulo 2^16. */
  function SinPort(port: int): (r: int)
    ensures 0 <= r < 0x1_0000
  {
    port % 0x1_0000
  }

  /** Swapping the two bytes of a 16-bit value: htons and ntohs on a little-endian host. */
  function ByteSwap16(x: int): (r: int)
    requires 0 <= x < 0x1_0000
    ensures 0 <= r < 0x1_0000
    ensures r / 0x100 == x % 0x100 && r % 0x100 == x / 0x100
  {
    (x % 0x100) * 0x100 + x / 0x100
  }

  lemma ByteSwapInvolution(x: int)
    requires 0 <= x < 0x1_0000
    ensures ByteSwap16(ByteSwap16(x)) == x
  {
    var y := ByteSwap16(x);
    assert y / 0x100 == x % 0x100 && y % 0x100 == x / 0x100;
  }

  /**
   * IsPortAvailable as written: the port goes into `sin_port` without
   * conversion to network byte order, so on a little-endian host the
   * kernel probes the byte-swapped port.
   */
  function IsPortAvailableAsWritten(bindable: Bindable, port: int): (r: bool)
    ensures r == IsPortAvailable(bindable, ByteSwap16(SinPort(port)))
  {
    var kernelPort := ByteSwap16(SinPort(port));
    ProbesPortItself(bindable, kernelPort);
    bindable(kernelPort)
  }

  /** IsPortAvailable with `sin_port` set to htons(port): the kernel probes the port itself. */
  function IsPortAvailable(bindable: Bindable, port: int): (r: bool)
    ensures r <==> bindable(SinPort(port))
  {
    ByteSwapInvolution(SinPort(port));
    bindable(ByteSwap16(ByteSwap16(SinPort(port))))
  }

  /** A port that fits in 16 bits is probed as itself. */
  lemma ProbesPortItself(bindable: Bindable, port: int)
    requires 0 <= port < 0x1_0000
    ensures IsPortAvailable(bindable, port) == bindable(port)
  {
  }

  // ---------------------------------------------------------------------
  // The search

  /** The first port tried: where the last search left off, or the first user port. */
  function FirstCandidate(nextPort: int): (r: int)
    ensures nextPort == 0 ==> r == FIRST_USER_PORT
    ensures nextPort != 0 ==> r == nextPort
  {
    if nextPort == 0 then FIRST_USER_PORT else nextPort
  }

  /** The port tried after a busy one: the next, or the first user port once the ephemeral range is reached. */
  function NextCandidate(port: int, minEphemeral: int): (r: int)
    ensures r == FIRST_USER_PORT || (r == port + 1 && r < minEphemeral)
  {
    if port + 1 >= minEphemeral then FIRST_USER_PORT else port + 1
  }

  /** The ports a search starting at `port` tries, in order. */
  function Probes(port: int, minEphemeral: int, tries: nat): (r: seq<int>)
    ensures |r| == tries
    ensures tries > 0 ==> r[0] == port
    decreases tries
  {
    if tries == 0 then [] else [port] + Probes(NextCandidate(port, minEphemeral), minEphemeral, tries - 1)
  }

  /** The first of `tries` probes that succeeds, or the exhaustion error. */
  function Search(probe: int -> bool, port: int, minEphemeral: int, tries: nat): (r: Result<int>)
    ensures r.Ok? ==> probe(r.value)
    ensures r.Err? ==> r.status == NoUnusedPortError
    decreases tries
  {
    if tries == 0 then Err(NoUnusedPortError)
    else if probe(port) then Ok(port)
    else Search(probe, NextCandidate(port, minEphemeral), minEphemeral, tries - 1)
  }

  /** FindUnusedPort's answer for a probe, the remembered port and the port range. */
  function FindPort(probe: int -> bool, nextPort: int, range: PortRange): (r: Result<int>)
    ensures range.None? ==> r == Err(PortRangeError)
  {
    if range.None? then Err(PortRangeError)
    else Search(probe, FirstCandidate(nextPort), range.value.0, MAX_TRIES)
  }

  /**
   * A search succeeds exactly when one of its probes does, and then
   * answers the first port whose probe succeeds; otherwise it fails with
   * the exhaustion error.
   */
  lemma {:induction false} SearchFindsFirstAvailable(probe: int -> bool, port: int, minEphemeral: int, tries: nat)
    ensures Search(probe, port, minEphemeral, tries).Ok? <==>
              exists p :: p in Probes(port, minEphemeral, tries) && probe(p)
    ensures Search(probe, port, minEphemeral, tries).Ok? ==>
              exists k :: 0 <= k < tries && Probes(port, minEphemeral, tries)[k] == Search(probe, port, minEphemeral, tries).value &&
                          probe(Probes(port, minEphemeral, tries)[k]) &&
                          forall j :: 0 <= j < k ==> !probe(Probes(port, minEphemeral, tries)[j])
    ensures Search(probe, port, minEphemeral, tries).Err? ==> Search(probe, port, minEphemeral, tries) == Err(NoUnusedPortError)
    decreases tries
  {
    if tries > 0 && !probe(port) {
      var next := NextCandidate(port, minEphemeral);
      var probes := Probes(port, minEphemeral, tries);
      var rest := Probes(next, minEphemeral, tries - 1);
      assert forall k :: 0 < k < tries ==> probes[k] == rest[k - 1];
      SearchFindsFirstAvailable(probe, next, minEphemeral, tries - 1);
      var r := Search(probe, port, minEphemeral, tries);
      assert r == Search(probe, next, minEphemeral, tries - 1);
      if r.Ok? {
        var k :| 0 <= k < tries - 1 && rest[k] == r.value && probe(r.value) &&
                 forall j :: 0 <= j < k ==> !probe(rest[j]);
        assert probes[k + 1] == r.value && probe(probes[k + 1]);
      }
      assert probes == [port] + rest;
    }
  }

  /**
   * Every probe after the first stays out of the ephemeral range: it is
   * the first user port, or a port above it below the ephemeral range.
   */
  lemma {:induction false} LaterProbesAvoidEphemeral(port: int, minEphemeral: int, tries: nat)
    requires port >= FIRST_USER_PORT
    ensures forall k :: 0 <= k < tries ==> Probes(port, minEphemeral, tries)[k] >= FIRST_USER_PORT
    ensures forall k :: 1 <= k < tries ==>
              Probes(port, minEphemeral, tries)[k] == FIRST_USER_PORT || Probes(port, minEphemeral, tries)[k] < minEphemeral
    decreases tries
  {
    if tries > 0 {
      var next := NextCandidate(port, minEphemeral);
      var probes := Probes(port, minEphemeral, tries);
      var rest := Probes(next, minEphemeral, tries - 1);
      assert forall k :: 0 < k < tries ==> probes[k] == rest[k - 1];
      LaterProbesAvoidEphemeral(next, minEphemeral, tries - 1);
      forall k | 1 <= k < tries
        ensures probes[k] >= FIRST_USER_PORT
        ensures probes[k] == FIRST_USER_PORT || probes[k] < minEphemeral
      {
        if k == 1 {
          assert probes[1] == rest[0] == next;
        } else {
          assert probes[k] == rest[k - 1];
        }
      }
    }
  }

  /** The port a successful search (with the correct byte order) answers was bindable. */
  lemma FoundPortIsFree(bindable: Bindable, nextPort: int, range: PortRange)
    requires FindPort(p => IsPortAvailable(bindable, p), nextPort, range).Ok?
    ensures bindable(SinPort(FindPort(p => IsPortAvailable(bindable, p), nextPort, range).value))
  {
    SearchFindsFirstAvailable(p => IsPortAvailable(bindable, p), FirstCandidate(nextPort), range.value.0, MAX_TRIES);
  }

  /**
   * As written, once a search has left port 1029 remembered (0x0405), the
   * next search first probes kernel port 1284 (0x0504). When 1029 is in use
   * and 1284 is free, it answers 1029, the port that is in use. Neither port
   * needs privileges to bind.
   */
  lemma AsWrittenReportsBusyPort(bindable: Bindable, minEphemeral: int, maxEphemeral: int)
    requires !bindable(1029) && bindable(1284) && minEphemeral > 1029
    ensures FindPort(p => IsPortAvailableAsWritten(bindable, p), 1029, Some((minEphemeral, maxEphemeral))) == Ok(1029)
  {
    assert ByteSwap16(SinPort(1029)) == 1284;
  }

  /**
   * With the correct byte order, the same situation skips the busy port:
   * whenever 1024 is busy and 1025 free below the ephemeral range, a first
   * search answers 1025.
   */
  lemma CorrectedSkipsBusyPort(bindable: Bindable, minEphemeral: int, maxEphemeral: int)
    requires !bindable(1024) && bindable(1025) && minEphemeral > 1025
    ensures FindPort(p => IsPortAvailable(bindable, p), 0, Some((minEphemeral, maxEphemeral))) == Ok(1025)
  {
    var probe := p => IsPortAvailable(bindable, p);
    ProbesPortItself(bindable, FIRST_USER_PORT);
    ProbesPortItself(bindable, FIRST_USER_PORT + 1);
    SearchSkipsOne(probe, FIRST_USER_PORT, minEphemeral, MAX_TRIES);
  }

  /** A busy port followed by a free one below the ephemeral range: the search answers the free one. */
  lemma SearchSkipsOne(probe: int -> bool, port: int, minEphemeral: int, tries: nat)
    requires tries >= 2 && !probe(port) && probe(port + 1) && port + 1 < minEphemeral
    ensures Search(probe, port, minEphemeral, tries) == Ok(port + 1)
  {
    assert NextCandidate(port, minEphemeral) == port + 1;
    assert Search(probe, port + 1, minEphemeral, tries - 1) == Ok(port + 1);
  }

  /** The process-wide port to start the next search from. */
  class PortFinder {
    var nextPort: int

    constructor ()
      ensures nextPort == 0
    {
      nextPort := 0;
    }

    /**
     * FindUnusedPort: the answer of FindPort for the remembered port; a
     * success remembers the port after the one found, a failure changes
     * nothing.
     */
    method FindUnusedPort(range: PortRange, bindable: Bindable) returns (r: Result<int>)
      modifies this
      ensures r == FindPort(p => IsPortAvailable(bindable, p), old(nextPort), range)
      ensures r.Ok? ==> nextPort == r.value + 1
      ensures r.Err? ==> nextPort == old(nextPort)
    {
      if range.None? {
        return Err(PortRangeError);
      }
      var minEphemeral := range.value.0;
      var probe := p => IsPortAvailable(bindable, p);
      var port := nextPort;
      if port == 0 {
        port := FIRST_USER_PORT;
      }
      for tries := 0 to MAX_TRIES
        invariant Search(probe, FirstCandidate(nextPort), minEphemeral, MAX_TRIES) ==
                    Search(probe, port, minEphemeral, MAX_TRIES - tries)
        invariant nextPort == old(nextPort)
      {
        if IsPortAvailable(bindable, port) {
          nextPort := port + 1;
          return Ok(port);
        }
        port := port + 1;
        if port >= minEphemeral {
          port := FIRST_USER_PORT;
        }
      }
      r := Err(NoUnusedPortError);
    }
  }
}
