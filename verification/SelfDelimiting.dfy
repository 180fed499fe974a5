/** Encodings carry their own length: a decoder that sees only a part of a frame runs out of input,
    and never mistakes the part for a message. */
module SelfDelimiting {
  import opened Wrappers
  import opened Bytes
  import opened Points
  import opened Utf8
  import opened Reading
  import opened Loc
  import opened Messages
  import opened RoundTrip
  import T = Types

  // ---- Compound reads agree with themselves on a prefix ----

  lemma PlaceConsistent(b: seq<Byte>, k: nat, i: nat, prev: Option<Place>)
    requires i <= k <= |b|
    ensures Consistent(PlaceAt(b[..k], i, prev), PlaceAt(b, i, prev), k)
  {
    hide I16At, I32At, SaturatingAdd;
    I16Consistent(b, k, i);
    I32Consistent(b, k, i);
    if prev.Some? {
      var dlat := I16At(b[..k], i);
      if dlat.Got? {
        I16Consistent(b, k, dlat.next);
      }
    } else {
      var lat := I32At(b[..k], i);
      if lat.Got? {
        I32Consistent(b, k, lat.next);
      }
    }
  }

  lemma OptConsistent(b: seq<Byte>, k: nat, i: nat, present: bool)
    requires i <= k <= |b|
    ensures Consistent(OptI32At(b[..k], i, present), OptI32At(b, i, present), k)
    ensures Consistent(OptU16At(b[..k], i, present), OptU16At(b, i, present), k)
    ensures Consistent(OptI64At(b[..k], i, present), OptI64At(b, i, present), k)
  {
    hide U16At, I32At, I64At;
    I32Consistent(b, k, i);
    U16Consistent(b, k, i);
    I64Consistent(b, k, i);
  }

  lemma ExtrasConsistent(b: seq<Byte>, k: nat, i: nat, flags: Byte)
    requires i <= k <= |b|
    ensures Consistent(ExtrasAt(b[..k], i, flags), ExtrasAt(b, i, flags), k)
  {
    hide OptI32At, OptU16At, OptI64At, Has;
    var s := b[..k];
    OptConsistent(b, k, i, Has(flags, PF_ALT));
    var alt := OptI32At(s, i, Has(flags, PF_ALT));
    if alt.Got? {
      OptConsistent(b, k, alt.next, Has(flags, PF_ACC));
      var acc := OptU16At(s, alt.next, Has(flags, PF_ACC));
      if acc.Got? {
        OptConsistent(b, k, acc.next, Has(flags, PF_TIME));
      }
    }
  }

  lemma FixConsistent(b: seq<Byte>, k: nat, i: nat, prev: Option<Place>)
    requires i <= k <= |b|
    ensures Consistent(FixAt(b[..k], i, prev), FixAt(b, i, prev), k)
  {
    hide U8At, PlaceAt, ExtrasAt, CoordOk;
    var s := b[..k];
    U8Consistent(b, k, i);
    var flags := U8At(s, i);
    if flags.Got? {
      PlaceConsistent(b, k, flags.next, prev);
      var place := PlaceAt(s, flags.next, prev);
      if place.Got? && CoordOk(place.value.lat, place.value.lon) {
        ExtrasConsistent(b, k, place.next, flags.value);
      }
    }
  }

  lemma {:induction false} FixesConsistent(b: seq<Byte>, k: nat, i: nat, n: nat, prev: Option<Place>)
    requires i <= k <= |b|
    ensures Consistent(FixesAt(b[..k], i, n, prev), FixesAt(b, i, n, prev), k)
    decreases n
  {
    hide FixAt;
    if n > 0 {
      FixConsistent(b, k, i, prev);
      var f := FixAt(b[..k], i, prev);
      if f.Got? {
        FixesConsistent(b, k, f.next, n - 1, Some(PlaceOf(f.value)));
      }
    }
  }

  lemma LocConsistent(b: seq<Byte>, k: nat, i: nat)
    requires i <= k <= |b|
    ensures Consistent(LocAt(b[..k], i), LocAt(b, i), k)
  {
    hide U8At, U32At, FixesAt;
    var s := b[..k];
    U32Consistent(b, k, i);
    var num := U32At(s, i);
    if num.Got? {
      U8Consistent(b, k, num.next);
      var count := U8At(s, num.next);
      if count.Got? {
        FixesConsistent(b, k, count.next, count.value, None);
      }
    }
  }

  lemma PositionConsistent(b: seq<Byte>, k: nat, i: nat)
    requires i <= k <= |b|
    ensures Consistent(PositionAt(b[..k], i), PositionAt(b, i), k)
  {
    hide PlaceAt, CoordOk, PositionOf;
    PlaceConsistent(b, k, i, None);
  }

  lemma {:induction false} PositionsConsistent(b: seq<Byte>, k: nat, i: nat, n: nat)
    requires i <= k <= |b|
    ensures Consistent(PositionsAt(b[..k], i, n), PositionsAt(b, i, n), k)
    decreases n
  {
    hide PositionAt;
    if n > 0 {
      PositionConsistent(b, k, i);
      var p := PositionAt(b[..k], i);
      if p.Got? {
        PositionsConsistent(b, k, p.next, n - 1);
      }
    }
  }

  lemma RouteConsistent(b: seq<Byte>, k: nat, i: nat, present: bool)
    requires i <= k <= |b|
    ensures Consistent(RouteAt(b[..k], i), RouteAt(b, i), k)
    ensures Consistent(OptRouteAt(b[..k], i, present), OptRouteAt(b, i, present), k)
  {
    hide U16At, PositionsAt;
    U16Consistent(b, k, i);
    var n := U16At(b[..k], i);
    if n.Got? {
      PositionsConsistent(b, k, n.next, n.value);
    }
  }

  lemma OptPointConsistent(b: seq<Byte>, k: nat, i: nat, present: bool)
    requires i <= k <= |b|
    ensures Consistent(OptPointAt(b[..k], i, present), OptPointAt(b, i, present), k)
  {
    hide FixAt, Degrees;
    FixConsistent(b, k, i, None);
  }

  // ---- Client commands ----

  lemma ResumeConsistent(b: seq<Byte>, k: nat, i: nat)
    requires i <= k <= |b|
    ensures Consistent(ResumeAt(b[..k], i), ResumeAt(b, i), k)
  {
    hide U32At, UuidAt;
    var s := b[..k];
    UuidConsistent(b, k, i);
    var uid := UuidAt(s, i);
    if uid.Got? {
      U32Consistent(b, k, uid.next);
    }
  }

  lemma TrackStartConsistent(b: seq<Byte>, k: nat, i: nat)
    requires i <= k <= |b|
    ensures Consistent(TrackStartAt(b[..k], i), TrackStartAt(b, i), k)
  {
    hide BytesAt, Has, OptPointAt, RouteAt, U8At;
    var s := b[..k];
    U8Consistent(b, k, i);
    var flags := U8At(s, i);
    if flags.Got? {
      OptPointConsistent(b, k, flags.next, Has(flags.value, 1));
      var location := OptPointAt(s, flags.next, Has(flags.value, 1));
      if location.Got? {
        RouteConsistent(b, k, location.next, true);
        var route := RouteAt(s, location.next);
        if route.Got? {
          BytesConsistent(b, k, route.next);
        }
      }
    }
  }

  lemma LocCmdConsistent(b: seq<Byte>, k: nat, i: nat)
    requires i <= k <= |b|
    ensures Consistent(LocCmdAt(b[..k], i), LocCmdAt(b, i), k)
  {
    hide LocAt, LocCmd;
    LocConsistent(b, k, i);
  }

  lemma SubscribeConsistent(b: seq<Byte>, k: nat, i: nat)
    requires i <= k <= |b|
    ensures Consistent(SubscribeAt(b[..k], i), SubscribeAt(b, i), k)
  {
    hide U16At, U8At, UuidAt;
    var s := b[..k];
    UuidConsistent(b, k, i);
    var uid := UuidAt(s, i);
    if uid.Got? {
      U8Consistent(b, k, uid.next);
      var flags := U8At(s, uid.next);
      if flags.Got? {
        U16Consistent(b, k, flags.next);
      }
    }
  }

  lemma UnsubscribeConsistent(b: seq<Byte>, k: nat, i: nat)
    requires i <= k <= |b|
    ensures Consistent(UnsubscribeAt(b[..k], i), UnsubscribeAt(b, i), k)
  {
    hide U8At;
    U8Consistent(b, k, i);
  }

  lemma EventConsistent(b: seq<Byte>, k: nat, i: nat)
    requires i <= k <= |b|
    ensures Consistent(EventAt(b[..k], i), EventAt(b, i), k)
  {
    hide BytesAt, I64At;
    var s := b[..k];
    BytesConsistent(b, k, i);
    var payload := BytesAt(s, i);
    if payload.Got? {
      I64Consistent(b, k, payload.next);
    }
  }

  lemma CommandAckConsistent(b: seq<Byte>, k: nat, i: nat)
    requires i <= k <= |b|
    ensures Consistent(CommandAckAt(b[..k], i), CommandAckAt(b, i), k)
  {
    hide StrAt, T.AckStatusFrom, U8At, UuidAt;
    var s := b[..k];
    UuidConsistent(b, k, i);
    var id := UuidAt(s, i);
    if id.Got? {
      U8Consistent(b, k, id.next);
      var status := U8At(s, id.next);
      if status.Got? {
        StrConsistent(b, k, status.next);
      }
    }
  }

  lemma ClientBodyConsistent(b: seq<Byte>, k: nat, i: nat, t: Byte)
    requires i <= k <= |b| && 0x01 <= t <= 0x08
    ensures Consistent(ClientBodyAt(b[..k], i, t), ClientBodyAt(b, i, t), k)
  {
    hide ResumeAt, TrackStartAt, LocCmdAt, SubscribeAt, UnsubscribeAt, EventAt, CommandAckAt;
    ResumeConsistent(b, k, i);
    TrackStartConsistent(b, k, i);
    LocCmdConsistent(b, k, i);
    SubscribeConsistent(b, k, i);
    UnsubscribeConsistent(b, k, i);
    EventConsistent(b, k, i);
    CommandAckConsistent(b, k, i);
  }

  /** A prefix of a client frame is decoded like the whole, or runs out. */
  lemma ClientConsistent(b: seq<Byte>, k: nat)
    requires k <= |b|
    ensures Consistent(ClientAt(b[..k], 0), ClientAt(b, 0), k)
  {
    hide U8At, ClientBodyAt;
    U8Consistent(b, k, 0);
    var t := U8At(b[..k], 0);
    if t.Got? && 0x01 <= t.value <= 0x08 {
      ClientBodyConsistent(b, k, t.next, t.value);
    }
  }

  // ---- Server events ----

  lemma HelloConsistent(b: seq<Byte>, k: nat, i: nat)
    requires i <= k <= |b|
    ensures Consistent(HelloAt(b[..k], i), HelloAt(b, i), k)
  {
    hide U16At, U8At, UuidAt;
    var s := b[..k];
    U8Consistent(b, k, i);
    var version := U8At(s, i);
    if version.Got? {
      U16Consistent(b, k, version.next);
      var shard := U16At(s, version.next);
      if shard.Got? {
        UuidConsistent(b, k, shard.next);
      }
    }
  }

  lemma RelocateConsistent(b: seq<Byte>, k: nat, i: nat)
    requires i <= k <= |b|
    ensures Consistent(RelocateAt(b[..k], i), RelocateAt(b, i), k)
  {
    hide StrAt, U32At;
    var s := b[..k];
    U32Consistent(b, k, i);
    var retry := U32At(s, i);
    if retry.Got? {
      StrConsistent(b, k, retry.next);
    }
  }

  lemma ResumeOkConsistent(b: seq<Byte>, k: nat, i: nat)
    requires i <= k <= |b|
    ensures Consistent(ResumeOkAt(b[..k], i), ResumeOkAt(b, i), k)
  {
    hide U32At, UuidAt;
    var s := b[..k];
    UuidConsistent(b, k, i);
    var uid := UuidAt(s, i);
    if uid.Got? {
      U32Consistent(b, k, uid.next);
    }
  }

  lemma TrackStartedConsistent(b: seq<Byte>, k: nat, i: nat)
    requires i <= k <= |b|
    ensures Consistent(TrackStartedAt(b[..k], i), TrackStartedAt(b, i), k)
  {
    hide BytesAt, UuidAt;
    var s := b[..k];
    UuidConsistent(b, k, i);
    var uid := UuidAt(s, i);
    if uid.Got? {
      BytesConsistent(b, k, uid.next);
    }
  }

  lemma TrackStoppedConsistent(b: seq<Byte>, k: nat, i: nat)
    requires i <= k <= |b|
    ensures Consistent(TrackStoppedAt(b[..k], i), TrackStoppedAt(b, i), k)
  {
    hide UuidAt;
    UuidConsistent(b, k, i);
  }

  lemma AckConsistent(b: seq<Byte>, k: nat, i: nat)
    requires i <= k <= |b|
    ensures Consistent(AckAt(b[..k], i), AckAt(b, i), k)
  {
    hide U32At;
    U32Consistent(b, k, i);
  }

  lemma LocationAddedConsistent(b: seq<Byte>, k: nat, i: nat)
    requires i <= k <= |b|
    ensures Consistent(LocationAddedAt(b[..k], i), LocationAddedAt(b, i), k)
  {
    hide Degrees, FixAt, U32At, U8At;
    var s := b[..k];
    U8Consistent(b, k, i);
    var sub := U8At(s, i);
    if sub.Got? {
      U32Consistent(b, k, sub.next);
      var num := U32At(s, sub.next);
      if num.Got? {
        FixConsistent(b, k, num.next, None);
      }
    }
  }

  lemma SubscribedHeadConsistent(b: seq<Byte>, k: nat, i: nat)
    requires i <= k <= |b|
    ensures Consistent(SubscribedHeadAt(b[..k], i), SubscribedHeadAt(b, i), k)
  {
    hide U8At, UuidAt, UuidOptAt;
    var s := b[..k];
    U8Consistent(b, k, i);
    var sub := U8At(s, i);
    if sub.Got? {
      UuidConsistent(b, k, sub.next);
      var device := UuidAt(s, sub.next);
      if device.Got? {
        UuidOptConsistent(b, k, device.next);
        var track := UuidOptAt(s, device.next);
        if track.Got? {
          U8Consistent(b, k, track.next);
          var online := U8At(s, track.next);
          if online.Got? {
            U8Consistent(b, k, online.next);
          }
        }
      }
    }
  }

  lemma SubscribedPartsConsistent(b: seq<Byte>, k: nat, i: nat, flags: Byte)
    requires i <= k <= |b|
    ensures Consistent(SubscribedPartsAt(b[..k], i, flags), SubscribedPartsAt(b, i, flags), k)
  {
    hide OptPointAt, OptI64At, OptRouteAt, Has;
    var s := b[..k];
    OptPointConsistent(b, k, i, Has(flags, 1));
    var location := OptPointAt(s, i, Has(flags, 1));
    if location.Got? {
      OptI64Consistent(b, k, location.next, Has(flags, 2));
      var seen := OptI64At(s, location.next, Has(flags, 2));
      if seen.Got? {
        OptRouteConsistent(b, k, seen.next, Has(flags, 4));
      }
    }
  }

  lemma OptI64Consistent(b: seq<Byte>, k: nat, i: nat, present: bool)
    requires i <= k <= |b|
    ensures Consistent(OptI64At(b[..k], i, present), OptI64At(b, i, present), k)
  {
    OptConsistent(b, k, i, present);
    hide *;
  }

  lemma OptRouteConsistent(b: seq<Byte>, k: nat, i: nat, present: bool)
    requires i <= k <= |b|
    ensures Consistent(OptRouteAt(b[..k], i, present), OptRouteAt(b, i, present), k)
  {
    RouteConsistent(b, k, i, present);
    hide *;
  }

  lemma SubscribedTailConsistent(b: seq<Byte>, k: nat, i: nat)
    requires i <= k <= |b|
    ensures Consistent(SubscribedTailAt(b[..k], i), SubscribedTailAt(b, i), k)
  {
    hide F64At, StrAt, BytesAt;
    var s := b[..k];
    F64Consistent(b, k, i);
    var distance := F64At(s, i);
    if distance.Got? {
      F64Consistent(b, k, distance.next);
      var duration := F64At(s, distance.next);
      if duration.Got? {
        StrConsistent(b, k, duration.next);
        var startName := StrAt(s, duration.next);
        if startName.Got? {
          StrConsistent(b, k, startName.next);
          var endName := StrAt(s, startName.next);
          if endName.Got? {
            BytesConsistent(b, k, endName.next);
          }
        }
      }
    }
  }

  lemma SubscribedConsistent(b: seq<Byte>, k: nat, i: nat)
    requires i <= k <= |b|
    ensures Consistent(SubscribedAt(b[..k], i), SubscribedAt(b, i), k)
  {
    hide SubscribedHeadAt, SubscribedPartsAt, SubscribedTailAt;
    var s := b[..k];
    SubscribedHeadConsistent(b, k, i);
    var head := SubscribedHeadAt(s, i);
    if head.Got? {
      SubscribedPartsConsistent(b, k, head.next, head.value.flags);
      var parts := SubscribedPartsAt(s, head.next, head.value.flags);
      if parts.Got? {
        SubscribedTailConsistent(b, k, parts.next);
      }
    }
  }

  lemma ErrorConsistent(b: seq<Byte>, k: nat, i: nat)
    requires i <= k <= |b|
    ensures Consistent(ErrorAt(b[..k], i), ErrorAt(b, i), k)
  {
    hide StrAt, T.ErrorCodeFrom, U32At, U8At, UuidOptAt;
    var s := b[..k];
    U8Consistent(b, k, i);
    var code := U8At(s, i);
    if code.Got? {
      U32Consistent(b, k, code.next);
      var retry := U32At(s, code.next);
      if retry.Got? {
        UuidOptConsistent(b, k, retry.next);
        var track := UuidOptAt(s, retry.next);
        if track.Got? {
          StrConsistent(b, k, track.next);
        }
      }
    }
  }

  lemma EventAddedConsistent(b: seq<Byte>, k: nat, i: nat)
    requires i <= k <= |b|
    ensures Consistent(EventAddedAt(b[..k], i), EventAddedAt(b, i), k)
  {
    hide BytesAt, I64At, U8At;
    var s := b[..k];
    U8Consistent(b, k, i);
    var sub := U8At(s, i);
    if sub.Got? {
      BytesConsistent(b, k, sub.next);
      var payload := BytesAt(s, sub.next);
      if payload.Got? {
        I64Consistent(b, k, payload.next);
      }
    }
  }

  lemma CommandConsistent(b: seq<Byte>, k: nat, i: nat)
    requires i <= k <= |b|
    ensures Consistent(CommandAt(b[..k], i), CommandAt(b, i), k)
  {
    hide BytesAt, I64At, UuidAt;
    var s := b[..k];
    UuidConsistent(b, k, i);
    var id := UuidAt(s, i);
    if id.Got? {
      BytesConsistent(b, k, id.next);
      var payload := BytesAt(s, id.next);
      if payload.Got? {
        I64Consistent(b, k, payload.next);
      }
    }
  }

  lemma PresenceConsistent(b: seq<Byte>, k: nat, i: nat)
    requires i <= k <= |b|
    ensures Consistent(PresenceAt(b[..k], i), PresenceAt(b, i), k)
  {
    hide I64At, U8At;
    var s := b[..k];
    U8Consistent(b, k, i);
    var sub := U8At(s, i);
    if sub.Got? {
      U8Consistent(b, k, sub.next);
      var online := U8At(s, sub.next);
      if online.Got? {
        I64Consistent(b, k, online.next);
      }
    }
  }

  lemma ServerBodyConsistent(b: seq<Byte>, k: nat, i: nat, t: Byte)
    requires i <= k <= |b| && 0x80 <= t <= 0x8B
    ensures Consistent(ServerBodyAt(b[..k], i, t), ServerBodyAt(b, i, t), k)
  {
    hide HelloAt, RelocateAt, ResumeOkAt, TrackStartedAt, TrackStoppedAt, AckAt, LocationAddedAt, SubscribedAt, ErrorAt, EventAddedAt, CommandAt, PresenceAt;
    HelloConsistent(b, k, i);
    RelocateConsistent(b, k, i);
    ResumeOkConsistent(b, k, i);
    TrackStartedConsistent(b, k, i);
    TrackStoppedConsistent(b, k, i);
    AckConsistent(b, k, i);
    LocationAddedConsistent(b, k, i);
    SubscribedConsistent(b, k, i);
    ErrorConsistent(b, k, i);
    EventAddedConsistent(b, k, i);
    CommandConsistent(b, k, i);
    PresenceConsistent(b, k, i);
  }

  lemma ServerConsistent(b: seq<Byte>, k: nat)
    requires k <= |b|
    ensures Consistent(ServerAt(b[..k], 0), ServerAt(b, 0), k)
  {
    hide U8At, ServerBodyAt;
    U8Consistent(b, k, 0);
    var t := U8At(b[..k], 0);
    if t.Got? && 0x80 <= t.value <= 0x8B {
      ServerBodyConsistent(b, k, t.next, t.value);
    }
  }

  // ---- Whole messages ----

  /** Every strict prefix of a readable command's encoding is a truncated frame. */
  lemma ClientPrefixTruncated(c: ClientCmd, k: nat)
    requires ClientReadable(c) && k < |EncodeClient(c)|
    ensures DecodeClient(EncodeClient(c)[..k]) == Err(Truncated)
  {
    var b := EncodeClient(c);
    assert !EmptyBatch(c);
    hide EncodeClient, ClientReadable, NormClient, ClientAt;
    assert At(b, 0, b);
    ClientBack(b, 0, c);
    ClientConsistent(b, k);
  }

  lemma ServerPrefixTruncated(e: ServerEvt, k: nat)
    requires ServerReadable(e) && k < |EncodeServer(e)|
    ensures DecodeServer(EncodeServer(e)[..k]) == Err(Truncated)
  {
    var b := EncodeServer(e);
    hide EncodeServer, ServerReadable, NormServer, ServerAt;
    assert At(b, 0, b);
    ServerBack(b, 0, e);
    ServerConsistent(b, k);
  }

  /** So no encoding continues another, and equal bytes mean equal messages. */
  lemma ClientPrefixFree(c: ClientCmd, d: ClientCmd)
    requires ClientReadable(c) && ClientReadable(d) && EncodeClient(c) <= EncodeClient(d)
    ensures EncodeClient(c) == EncodeClient(d) && NormClient(c) == NormClient(d)
  {
    var b := EncodeClient(d);
    assert !EmptyBatch(c) && !EmptyBatch(d);
    hide EncodeClient, ClientReadable, NormClient, ClientAt;
    assert At(b, 0, EncodeClient(c)) && At(b, 0, b);
    ClientBack(b, 0, c);
    ClientBack(b, 0, d);
  }

  lemma ServerPrefixFree(e: ServerEvt, d: ServerEvt)
    requires ServerReadable(e) && ServerReadable(d) && EncodeServer(e) <= EncodeServer(d)
    ensures EncodeServer(e) == EncodeServer(d) && NormServer(e) == NormServer(d)
  {
    var b := EncodeServer(d);
    hide EncodeServer, ServerReadable, NormServer, ServerAt;
    assert At(b, 0, EncodeServer(e)) && At(b, 0, b);
    ServerBack(b, 0, e);
    ServerBack(b, 0, d);
  }
}
