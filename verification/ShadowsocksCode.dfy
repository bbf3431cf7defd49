/** core_ss_body_t of src/shadowsocks.c as the writer and the reader use it. */
module ShadowsocksCode {
  import opened Arithmetic
  import opened Bytes
  import opened ShadowsocksNonce
  import opened Shadowsocks

  class Writer {
    const ch: Channel
    const counter: Counter
    var failed: bool
    ghost var log: Log

    ghost predicate Valid()
      reads this, counter, counter.nonce
    {
      ch.maximum <= 65535 && counter.nonce.Length == ch.size && log.used == counter.Used() && log.failed == failed
    }

    /** A body whose salt and headers are done. */
    constructor (ch: Channel, counter: Counter)
      requires ch.maximum <= 65535 && counter.nonce.Length == ch.size
      ensures Valid() && this.ch == ch && this.counter == counter && log == Begin(counter.Used())
    {
      this.ch := ch;
      this.counter := counter;
      failed := false;
      log := Begin(counter.Used());
    }

    /** step for sealing. */
    method SealNext(plain: Octets) returns (output: Octets)
      requires counter.nonce.Length == ch.size && !counter.exhausted
      modifies counter`exhausted, counter.nonce
      ensures output == Seal(ch, old(counter.Used()), plain) && counter.Used() == old(counter.Used()) + 1
    {
      LittleValue(counter.nonce[..]);
      output := ch.seal(counter.nonce[..], plain);
      counter.Advance();
    }

    /** core_ss_body_encode. */
    method Encode(input: Octets, capacity: nat) returns (ok: bool, consumed: nat, output: Octets)
      requires Valid()
      modifies this`failed, this`log, counter`exhausted, counter.nonce
      ensures Valid() && log == Write(ch, old(log), input, capacity)
      ensures ok ==>
          consumed <= |input| && log.output == old(log.output) + output
              && log.taken == old(log.taken) + input[..consumed]
      ensures !ok ==> output == [] && log.output == old(log.output)
    {
      ok, consumed, output := false, 0, [];
      assert input[..0] == [] && log.output + [] == log.output && log.taken + [] == log.taken;
      if failed { return; }
      if input == [] { ok := true; return; }
      if capacity <= 34 { return; }
      var take := |input|;
      if take > ch.maximum { take := ch.maximum; }
      if take > capacity - 34 { take := capacity - 34; }
      var available := counter.Available(2);
      log := Write(ch, log, input, capacity);
      if !available {
        failed := true;
        return;
      }
      var header := SealNext(Write16(take));
      var payload := SealNext(input[..take]);
      ok, consumed, output := true, take, header + payload;
    }
  }

  class Body {
    const ch: Channel
    const counter: Counter
    var stage: Stage
    var buffer: Octets
    var needed: nat
    var plain: Octets
    var failed: bool

    /** A body at the length stage. */
    constructor (ch: Channel, counter: Counter)
      ensures Now() == Fresh(counter.Used()) && this.ch == ch && this.counter == counter
    {
      this.ch := ch;
      this.counter := counter;
      stage, buffer, needed, plain, failed := Length, [], 18, [], false;
    }

    function Now(): Reader
      reads this, counter, counter.nonce
    {
      Reader(stage, buffer, needed, counter.Used(), plain, failed)
    }

    /** step for opening; `ok` is false when the octets are not genuine. */
    method OpenNext(cipher: Octets) returns (ok: bool, text: Octets)
      requires counter.nonce.Length == ch.size && !counter.exhausted
      modifies counter`exhausted, counter.nonce
      ensures Open(ch, old(counter.Used()), cipher) == if ok then Some(text) else None
      ensures counter.Used() == old(counter.Used()) + if ok then 1 else 0
    {
      LittleValue(counter.nonce[..]);
      match ch.open(counter.nonce[..], cipher) {
        case None => ok, text := false, [];
        case Some(p) =>
          ok, text := true, p;
          counter.Advance();
      }
    }

    /** core_ss_body_commit at the length and block stages. */
    method CommitOctets(octets: Octets)
      requires counter.nonce.Length == ch.size
      modifies this, counter`exhausted, counter.nonce
      ensures Now() == Commit(ch, old(Now()), octets)
    {
      if failed || plain != [] { return; }
      if |octets| > Wanted(Now()) {
        failed := true;
        return;
      }
      buffer := buffer + octets;
      if |buffer| < needed { return; }
      var available := counter.Available(if stage.Length? then 2 else 1);
      if !available {
        failed := true;
        return;
      }
      var ok, text := OpenNext(buffer);
      if !ok {
        failed := true;
        return;
      }
      if stage.Length? {
        if |text| < 2 || Read16(text) > ch.maximum {
          failed := true;
          return;
        }
        stage, buffer, needed, plain := Block, [], Read16(text) + TAG, [];
      } else if text != [] {
        plain := text;
      } else {
        stage, buffer, needed := Length, [], 18;
      }
    }

    /** core_ss_body_eof after the headers: whether the peer may stop here. */
    method EndOfFile() returns (ok: bool)
      ensures ok <==> AtEnd(Now())
    {
      ok := !failed && ((stage.Length? && |buffer| == 0) || (stage.Block? && |plain| > 0 && |buffer| == needed));
    }

    /** core_ss_body_read: the front of what was opened, and nothing of it is lost; when all is read
        the next length is awaited. */
    method ReadOctets(capacity: nat) returns (data: Octets)
      modifies this
      ensures !failed ==>
          data + plain == old(plain) && |data| == if old(|plain|) < capacity then old(|plain|) else capacity
      ensures failed == old(failed) && (failed ==> data == [] && plain == old(plain))
          && counter.Used() == old(counter.Used())
      ensures data != [] && plain == [] ==> stage.Length? && buffer == []
      ensures (Now(), data) == Read(old(Now()), capacity)
    {
      data := [];
      if failed { return; }
      var take := if |plain| > capacity then capacity else |plain|;
      if take > 0 {
        data := plain[..take];
        assert plain[..|plain|] == plain;
        plain := plain[take..];
        if plain == [] { stage, buffer, needed := Length, [], 18; }
      }
    }
  }
}
