/** Converting a whole stream: decode each upstream frame, encode each event for the client. */
module StreamConversion {
  import opened Wrappers
  import opened StreamTypes
  import opened StreamSpec
  import opened StreamDecoding
  import StreamDecoder
  import StreamEncoder
  import StreamRoundTrip

  /** The client gets the encoding of exactly the events the upstream frames decode to, or nothing past a
      bad frame; and if they make a readable sequence, decoding what the client gets returns their content,
      stop reason and usage. */
  method ConvertStream(frames: seq<Frame>, to: Protocol, omitUsage: bool) returns (out: Result<seq<Frame>>)
    ensures match DecodeAll(FRESH, frames)
      case Err => out.Err?
      case Ok(d) => out == Ok(Encode(to, omitUsage, d.events))
    ensures forall es | DecodeAll(FRESH, frames).Ok? && DecodeAll(FRESH, frames).value.events == es + [Done]
                        && StreamRoundTrip.Readable(to, es) ::
      out.Ok? && DecodeAll(FRESH, out.value).Ok?
      && StreamRoundTrip.Returned(to, omitUsage, es, DecodeAll(FRESH, out.value).value.events)
  {
    hide Decode, Render, Run, StreamRoundTrip.Readable, StreamRoundTrip.Returned;
    var decoder := new StreamDecoder.Decoder();
    var encoder := new StreamEncoder.Encoder(to, omitUsage);
    var written: seq<Frame> := [];
    ghost var events: seq<Event> := [];
    assert frames[..0] == [];
    StartsEmpty(to, omitUsage);
    for i := 0 to |frames|
      invariant DecodeAll(FRESH, frames[..i]) == Ok(Decoded(decoder.Memory(), events))
      invariant encoder.Valid() && encoder.protocol == to && encoder.model == Run(to, omitUsage, events).enc
      invariant encoder.Wrote(0, written, Run(to, omitUsage, events).ops)
    {
      assert frames[..i + 1][..i] == frames[..i];
      var decoded := decoder.DecodeFrame(frames[i]);
      if decoded.Err? {
        StreamDecoder.Spoiled(frames, i + 1);
        return Err;
      }
      written := EncodeEvents(encoder, events, decoded.value, written, omitUsage);
      events := events + decoded.value;
    }
    assert frames[..|frames|] == frames;
    out := Ok(written);
    forall es | events == es + [Done] && StreamRoundTrip.Readable(to, es)
      ensures DecodeAll(FRESH, written).Ok? && StreamRoundTrip.Returned(to, omitUsage, es, DecodeAll(FRESH, written).value.events)
    {
      StreamRoundTrip.RoundTrip(to, omitUsage, es);
    }
  }

  lemma StartsEmpty(to: Protocol, omitUsage: bool)
    ensures Run(to, omitUsage, []) == Stepped(Fresh(to, omitUsage), []) && Render(to, 0, []) == []
  {
  }

  /** The events of one frame, one after the other. */
  method EncodeEvents(encoder: StreamEncoder.Encoder, ghost before: seq<Event>, events: seq<Event>, written: seq<Frame>, omitUsage: bool)
      returns (out: seq<Frame>)
    requires encoder.Valid() && encoder.model == Run(encoder.protocol, omitUsage, before).enc
    requires encoder.Wrote(0, written, Run(encoder.protocol, omitUsage, before).ops)
    modifies encoder
    ensures encoder.Valid() && encoder.model == Run(encoder.protocol, omitUsage, before + events).enc
    ensures encoder.Wrote(0, out, Run(encoder.protocol, omitUsage, before + events).ops)
  {
    hide Render, Step, StreamEncoder.Represents;
    out := written;
    assert before + events[..0] == before;
    for i := 0 to |events|
      invariant encoder.Valid() && encoder.model == Run(encoder.protocol, omitUsage, before + events[..i]).enc
      invariant encoder.Wrote(0, out, Run(encoder.protocol, omitUsage, before + events[..i]).ops)
    {
      ghost var sofar := before + events[..i];
      ghost var r := Run(encoder.protocol, omitUsage, sofar);
      ghost var all := before + events[..i + 1];
      assert all[..|all| - 1] == sofar && all[|all| - 1] == events[i];
      StreamEncoder.Joined(encoder.protocol, 0, r.ops, Step(r.enc, events[i]).ops);
      var more := encoder.Encode(events[i]);
      out := out + more;
    }
    assert before + events[..|events|] == before + events;
  }
}
