/**
 * util/status_encoding: conversion between an absl::Status and a
 * google.rpc.Status protocol buffer (code, message, and one `Any` detail
 * per payload).
 */
module StatusEncoding {
  import opened Status

  /** google.protobuf.Any: a type URL and serialized bytes. */
  datatype Any = Any(typeUrl: string, value: seq<byte>)

  /** google.rpc.Status. */
  datatype StatusProto = StatusProto(code: int, message: string, details: seq<Any>)

  /** A default-constructed google.rpc.Status. */
  const EmptyProto: StatusProto := StatusProto(0, "", [])

  /** One Any message per payload, in payload order. */
  function Details(ps: seq<Payload>): (ds: seq<Any>)
    ensures |ds| == |ps|
    ensures forall i :: 0 <= i < |ps| ==> ds[i] == Any(ps[i].typeUrl, ps[i].value)
  {
    if ps == [] then [] else [Any(ps[0].typeUrl, ps[0].value)] + Details(ps[1..])
  }

  /** The proto SaveStatusToProto produces from a default-constructed proto. */
  function Encode(s: Status): (r: StatusProto)
    ensures r.code == s.code && r.message == s.message
    ensures |r.details| == |s.payloads|
    ensures forall i :: 0 <= i < |s.payloads| ==>
              r.details[i].typeUrl == s.payloads[i].typeUrl && r.details[i].value == s.payloads[i].value
  {
    StatusProto(s.code, s.message, Details(s.payloads))
  }

  /**
   * SaveStatusToProto: the code is overwritten, the message only when the
   * status has one, and one detail is appended per payload to the details
   * the proto already held.
   */
  method SaveStatusToProto(s: Status, proto: StatusProto) returns (out: StatusProto)
    ensures out.code == s.code
    ensures out.message == if s.message != "" then s.message else proto.message
    ensures out.details == proto.details + Details(s.payloads)
    ensures proto == EmptyProto ==> out == Encode(s)
  {
    out := proto.(code := s.code);
    if s.message != "" {
      out := out.(message := s.message);
    }
    for i := 0 to |s.payloads|
      invariant out.code == s.code
      invariant out.message == if s.message != "" then s.message else proto.message
      invariant out.details == proto.details + Details(s.payloads[..i])
    {
      AppendDetail(proto.details, s.payloads[..i], s.payloads[i]);
      assert s.payloads[..i + 1] == s.payloads[..i] + [s.payloads[i]];
      out := out.(details := out.details + [Any(s.payloads[i].typeUrl, s.payloads[i].value)]);
    }
    assert s.payloads[..|s.payloads|] == s.payloads;
    assert proto == EmptyProto ==> out.details == Details(s.payloads);
  }

  lemma DetailsAppend(ps: seq<Payload>, p: Payload)
    ensures Details(ps + [p]) == Details(ps) + [Any(p.typeUrl, p.value)]
  {
    assert |Details(ps + [p])| == |Details(ps) + [Any(p.typeUrl, p.value)]|;
  }

  /** Appending one more payload's detail after earlier details. */
  lemma AppendDetail(base: seq<Any>, ps: seq<Payload>, p: Payload)
    ensures (base + Details(ps)) + [Any(p.typeUrl, p.value)] == base + Details(ps + [p])
  {
    DetailsAppend(ps, p);
  }

  /** Applies SetPayload for each detail, in order. */
  function RestorePayloads(s: Status, ds: seq<Any>): (r: Status)
    ensures s.IsOk() ==> r == s
    ensures r.code == s.code && r.message == s.message
    decreases |ds|
  {
    if ds == [] then s
    else RestorePayloads(SetPayload(s, ds[0].typeUrl, ds[0].value), ds[1..])
  }

  /**
   * StatusFromProto: code 0 is OK whatever else the proto holds; otherwise
   * code and message are kept and each detail becomes a payload.
   */
  function StatusFromProto(proto: StatusProto): (s: Status)
    ensures proto.code == OK_CODE ==> s == OkStatus
    ensures proto.code != OK_CODE ==> s.code == proto.code && s.message == proto.message
    ensures proto.code != OK_CODE ==>
              forall i :: 0 <= i < |proto.details| ==> HasUrl(s.payloads, proto.details[i].typeUrl)
    // The last detail with a URL gives that URL's payload, and no payload comes from anywhere else.
    ensures proto.code != OK_CODE ==>
              forall i :: LastWithUrl(proto.details, i) ==>
                Payload(proto.details[i].typeUrl, proto.details[i].value) in s.payloads
    ensures proto.code != OK_CODE ==>
              forall q :: q in s.payloads ==>
                exists i :: LastWithUrl(proto.details, i) && q == Payload(proto.details[i].typeUrl, proto.details[i].value)
    ensures Valid(s)
  {
    if proto.code == OK_CODE then OkStatus
    else
      var base := Status(proto.code, proto.message, []);
      RestoreKeepsFields(base, proto.details);
      RestoreTakesLastDetails(base, proto.details);
      RestoreAddsOnlyDetails(base, proto.details);
      RestorePayloads(base, proto.details)
  }

  /** Detail i is the last one with its type URL. */
  predicate LastWithUrl(ds: seq<Any>, i: int) {
    0 <= i < |ds| && forall j :: i < j < |ds| ==> ds[j].typeUrl != ds[i].typeUrl
  }

  predicate DetailHasUrl(ds: seq<Any>, url: string) {
    exists i :: 0 <= i < |ds| && ds[i].typeUrl == url
  }

  /** A payload whose URL no detail carries survives restoring. */
  lemma {:induction false} RestoreKeepsOtherPayloads(s: Status, ds: seq<Any>, q: Payload)
    requires !s.IsOk() && q in s.payloads && !DetailHasUrl(ds, q.typeUrl)
    ensures q in RestorePayloads(s, ds).payloads
    decreases |ds|
  {
    if ds != [] {
      assert ds[0].typeUrl != q.typeUrl;
      var s' := SetPayload(s, ds[0].typeUrl, ds[0].value);
      assert q in s'.payloads;
      assert !DetailHasUrl(ds[1..], q.typeUrl) by {
        forall i | 0 <= i < |ds[1..]|
          ensures ds[1..][i].typeUrl != q.typeUrl
        {
          assert ds[1..][i] == ds[i + 1];
        }
      }
      RestoreKeepsOtherPayloads(s', ds[1..], q);
    }
  }

  /** The last detail with each URL ends up among the payloads. */
  lemma {:induction false} RestoreTakesLastDetails(s: Status, ds: seq<Any>)
    requires !s.IsOk()
    ensures forall i :: LastWithUrl(ds, i) ==> Payload(ds[i].typeUrl, ds[i].value) in RestorePayloads(s, ds).payloads
    decreases |ds|
  {
    if ds != [] {
      var s' := SetPayload(s, ds[0].typeUrl, ds[0].value);
      RestoreTakesLastDetails(s', ds[1..]);
      forall i | LastWithUrl(ds, i)
        ensures Payload(ds[i].typeUrl, ds[i].value) in RestorePayloads(s, ds).payloads
      {
        if i == 0 {
          assert !DetailHasUrl(ds[1..], ds[0].typeUrl) by {
            forall j | 0 <= j < |ds[1..]|
              ensures ds[1..][j].typeUrl != ds[0].typeUrl
            {
              assert ds[1..][j] == ds[j + 1];
            }
          }
          RestoreKeepsOtherPayloads(s', ds[1..], Payload(ds[0].typeUrl, ds[0].value));
        } else {
          assert ds[1..][i - 1] == ds[i];
          assert LastWithUrl(ds[1..], i - 1);
        }
      }
    }
  }

  /**
   * Every payload after restoring is one the status had under a URL no
   * detail carries, or the last detail with its URL.
   */
  lemma {:induction false} RestoreAddsOnlyDetails(s: Status, ds: seq<Any>)
    requires !s.IsOk() && DistinctUrls(s.payloads)
    ensures forall q :: q in RestorePayloads(s, ds).payloads ==>
              (q in s.payloads && !DetailHasUrl(ds, q.typeUrl)) ||
              exists i :: LastWithUrl(ds, i) && q == Payload(ds[i].typeUrl, ds[i].value)
    decreases |ds|
  {
    if ds != [] {
      var p := Payload(ds[0].typeUrl, ds[0].value);
      var s' := SetPayload(s, ds[0].typeUrl, ds[0].value);
      RestoreAddsOnlyDetails(s', ds[1..]);
      forall q | q in RestorePayloads(s, ds).payloads
        ensures (q in s.payloads && !DetailHasUrl(ds, q.typeUrl)) ||
                exists i :: LastWithUrl(ds, i) && q == Payload(ds[i].typeUrl, ds[i].value)
      {
        LaterOrFirst(s, s', ds, q);
      }
    }
  }

  /** One step of RestoreAddsOnlyDetails: where a payload after the first detail comes from. */
  lemma LaterOrFirst(s: Status, s': Status, ds: seq<Any>, q: Payload)
    requires !s.IsOk() && DistinctUrls(s.payloads) && ds != []
    requires s' == SetPayload(s, ds[0].typeUrl, ds[0].value)
    requires (q in s'.payloads && !DetailHasUrl(ds[1..], q.typeUrl)) ||
             exists i :: LastWithUrl(ds[1..], i) && q == Payload(ds[1..][i].typeUrl, ds[1..][i].value)
    ensures (q in s.payloads && !DetailHasUrl(ds, q.typeUrl)) ||
            exists i :: LastWithUrl(ds, i) && q == Payload(ds[i].typeUrl, ds[i].value)
  {
    var later := ds[1..];
    if exists i :: LastWithUrl(later, i) && q == Payload(later[i].typeUrl, later[i].value) {
      var i :| LastWithUrl(later, i) && q == Payload(later[i].typeUrl, later[i].value);
      assert later[i] == ds[i + 1];
      forall j | i + 1 < j < |ds|
        ensures ds[j].typeUrl != ds[i + 1].typeUrl
      {
        assert ds[j] == later[j - 1];
      }
      assert LastWithUrl(ds, i + 1);
    } else {
      var p := Payload(ds[0].typeUrl, ds[0].value);
      forall j | 1 <= j < |ds|
        ensures ds[j].typeUrl != q.typeUrl
      {
        assert ds[j] == later[j - 1];
      }
      if q == p {
        assert LastWithUrl(ds, 0);
      } else {
        assert q in s.payloads && q.typeUrl != p.typeUrl;
        forall j | 0 <= j < |ds|
          ensures ds[j].typeUrl != q.typeUrl
        {
        }
      }
    }
  }

  /** What RestorePayloads keeps and adds. */
  lemma {:induction false} RestoreKeepsFields(s: Status, ds: seq<Any>)
    requires !s.IsOk()
    ensures Valid(s) ==> Valid(RestorePayloads(s, ds))
    ensures forall i :: 0 <= i < |s.payloads| ==>
              HasUrl(RestorePayloads(s, ds).payloads, s.payloads[i].typeUrl)
    ensures forall i :: 0 <= i < |ds| ==> HasUrl(RestorePayloads(s, ds).payloads, ds[i].typeUrl)
    decreases |ds|
  {
    if ds != [] {
      var s' := SetPayload(s, ds[0].typeUrl, ds[0].value);
      forall i | 0 <= i < |s.payloads| ensures HasUrl(s'.payloads, s.payloads[i].typeUrl) {
        UpsertKeepsUrls(s.payloads, Payload(ds[0].typeUrl, ds[0].value), s.payloads[i].typeUrl);
      }
      assert HasUrl(s'.payloads, ds[0].typeUrl) by {
        var p := Payload(ds[0].typeUrl, ds[0].value);
        var j :| 0 <= j < |s'.payloads| && s'.payloads[j] == p;
      }
      RestoreKeepsFields(s', ds[1..]);
      var r := RestorePayloads(s', ds[1..]);
      forall i | 0 <= i < |s.payloads| ensures HasUrl(r.payloads, s.payloads[i].typeUrl) {
        var j :| 0 <= j < |s'.payloads| && s'.payloads[j].typeUrl == s.payloads[i].typeUrl;
      }
      assert HasUrl(r.payloads, ds[0].typeUrl) by {
        var j :| 0 <= j < |s'.payloads| && s'.payloads[j].typeUrl == ds[0].typeUrl;
      }
      forall i | 1 <= i < |ds| ensures HasUrl(r.payloads, ds[i].typeUrl) {
        assert ds[1..][i - 1] == ds[i];
      }
    }
  }

  lemma UpsertKeepsUrls(ps: seq<Payload>, p: Payload, url: string)
    requires HasUrl(ps, url)
    ensures HasUrl(Upsert(ps, p), url)
  {
    var i :| 0 <= i < |ps| && ps[i].typeUrl == url;
    assert Upsert(ps, p)[i].typeUrl == url;
  }

  /**
   * Round trip: encoding a status into a fresh proto and decoding it gives
   * back the same status, payloads in the same order.
   */
  lemma {:induction false} StatusRoundTrip(s: Status)
    requires Valid(s)
    ensures StatusFromProto(Encode(s)) == s
  {
    if s.code != OK_CODE {
      RestoreAppends(s, 0);
      assert s.payloads[..0] == [];
      assert Details(s.payloads)[0..] == Details(s.payloads);
      assert s.payloads[..|s.payloads|] == s.payloads;
    }
  }

  /** Restoring the details from index k on after the first k payloads yields the whole status. */
  lemma {:induction false} RestoreAppends(s: Status, k: nat)
    requires Valid(s) && !s.IsOk() && k <= |s.payloads|
    ensures RestorePayloads(s.(payloads := s.payloads[..k]), Details(s.payloads)[k..]) == s
    decreases |s.payloads| - k
  {
    var ds := Details(s.payloads);
    if k == |s.payloads| {
      assert ds[k..] == [];
      assert s.payloads[..k] == s.payloads;
    } else {
      var p := s.payloads[k];
      var s0 := s.(payloads := s.payloads[..k]);
      var s1 := s.(payloads := s.payloads[..k + 1]);
      NewUrlAppends(s, k);
      assert SetPayload(s0, p.typeUrl, p.value) == s1;
      assert ds[k..][0] == Any(p.typeUrl, p.value);
      assert ds[k..][1..] == ds[k + 1..];
      RestoreAppends(s, k + 1);
    }
  }

  /** In a valid status, payload k's URL is new to the payloads before it, so setting it appends it. */
  lemma NewUrlAppends(s: Status, k: nat)
    requires Valid(s) && k < |s.payloads|
    ensures Upsert(s.payloads[..k], s.payloads[k]) == s.payloads[..k + 1]
  {
    var prefix := s.payloads[..k];
    var p := s.payloads[k];
    forall i | 0 <= i < |prefix|
      ensures prefix[i].typeUrl != p.typeUrl
    {
      assert prefix[i] == s.payloads[i];
    }
    assert prefix + [p] == s.payloads[..k + 1];
  }
}
