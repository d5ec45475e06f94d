/**
 The byte stream of an upload: the first 512 bytes are read ahead to sniff the content type and
 then put back in front of the rest, and the whole is cut off at the configured size limit.
 */
module UploadReader {
  import opened Common

  newtype Byte = n: int | 0 <= n < 256

  datatype Error = Eof | TooLarge | Broken(message: string)

  const HEADER_SIZE: nat := 512

  /** Bytes that are left, as a reader may hand them out: any prefix, in any number of calls. */
  ghost predicate ReadsPrefix(before: seq<Byte>, got: seq<Byte>, after: seq<Byte>, size: nat) {
    before == got + after && |got| <= size
  }

  predicate BreaksWith(err: Option<Error>) {
    err.Some? && err.value.Broken?
  }

  /**
   The multipart part. It chunks as it likes, may report the end together with the last bytes
   or after them, may return nothing a finite number of times, and, unless the connection is
   `reliable`, may break at any moment.
   */
  class Part {
    const data: seq<Byte>
    const reliable: bool
    var pos: nat
    var stalls: nat

    ghost predicate Valid()
      reads this
    {
      pos <= |data|
    }

    ghost function Rest(): seq<Byte>
      requires Valid()
      reads this
    {
      data[pos..]
    }

    constructor (data: seq<Byte>, reliable: bool, stalls: nat)
      ensures Valid() && Rest() == data && this.reliable == reliable
    {
      this.data, this.reliable, this.pos, this.stalls := data, reliable, 0, stalls;
    }

    method Read(size: nat) returns (got: seq<Byte>, err: Option<Error>)
      requires Valid()
      modifies this
      ensures Valid()
      ensures ReadsPrefix(old(Rest()), got, Rest(), size)
      ensures err != Some(TooLarge) && (reliable ==> !BreaksWith(err))
      ensures err == Some(Eof) ==> Rest() == []
      ensures stalls <= old(stalls)
      ensures size > 0 && got == [] && err == None ==> stalls < old(stalls)
    {
      var n: nat :| n <= size && n <= |data| - pos;
      got := data[pos..pos + n];
      pos := pos + n;
      err := None;
      var breaks: bool :| true;
      var tells: bool :| true;
      if breaks && !reliable {
        err := Some(Broken("connection reset"));
      } else if pos == |data| && (tells || (n == 0 && stalls == 0)) {
        err := Some(Eof);
      } else if n == 0 && size > 0 {
        if stalls > 0 {
          stalls := stalls - 1;
        } else {
          got := data[pos..pos + 1];
          pos := pos + 1;
        }
      }
    }
  }

  /** `io.MultiReader` over the sniffed header and then the part. */
  class MultiReader {
    const header: seq<Byte>
    const part: Part
    var used: nat
    var stage: nat

    ghost predicate Valid()
      reads this, part
    {
      && part.Valid()
      && used <= |header|
      && (stage >= 1 ==> used == |header|)
      && (stage >= 2 ==> part.Rest() == [])
    }

    ghost function Rest(): seq<Byte>
      requires Valid()
      reads this, part
    {
      header[used..] + part.Rest()
    }

    constructor (header: seq<Byte>, part: Part)
      requires part.Valid()
      ensures Valid() && Rest() == header + part.Rest() && this.part == part
    {
      this.header, this.part, this.used, this.stage := header, part, 0, 0;
    }

    method Read(size: nat) returns (got: seq<Byte>, err: Option<Error>)
      requires Valid()
      modifies this, part
      ensures Valid()
      ensures ReadsPrefix(old(Rest()), got, Rest(), size)
      ensures err != Some(TooLarge) && (part.reliable ==> !BreaksWith(err))
      ensures err == Some(Eof) ==> Rest() == []
      ensures part.stalls <= old(part.stalls)
      ensures size > 0 && got == [] && err == None ==> part.stalls < old(part.stalls)
    {
      if stage == 0 {
        if used < |header| {
          var n := if size < |header| - used then size else |header| - used;
          got := header[used..used + n];
          used := used + n;
          assert header[used - n..] == got + header[used..];
          return got, None;
        }
        stage := 1;
      }
      if stage == 1 {
        got, err := part.Read(size);
        if err == Some(Eof) {
          stage := 2;
        }
        return;
      }
      return [], Some(Eof);
    }
  }

  /** The reader that the object store drains. */
  class SizeLimitedReader {
    const reader: MultiReader
    const limit: int
    var read: nat

    ghost predicate Valid()
      reads this, reader, reader.part
    {
      reader.Valid()
    }

    /** The calls that can still return before an error does. */
    ghost function Fuel(): nat
      requires Valid()
      reads this, reader, reader.part
    {
      |reader.Rest()| + reader.part.stalls
    }

    constructor (reader: MultiReader, limit: int)
      requires reader.Valid()
      ensures Valid() && read == 0 && this.reader == reader && this.limit == limit
    {
      this.reader, this.limit, this.read := reader, limit, 0;
    }

    /** One byte beyond the limit, if there is one, is probed for and turned into the error. */
    method Read(size: nat) returns (got: seq<Byte>, err: Option<Error>)
      requires Valid()
      modifies this, reader, reader.part
      ensures Valid()
      ensures read == old(read) + |got| && |got| <= size && (old(read) <= limit ==> read <= limit)
      ensures err == Some(TooLarge) ==> old(read) >= limit && got == [] && old(reader.Rest()) != []
      ensures err != Some(TooLarge) ==> old(reader.Rest()) == got + reader.Rest()
      ensures old(read) >= limit ==> got == []
      ensures err == Some(Eof) ==> reader.Rest() == []
      ensures reader.part.reliable ==> !BreaksWith(err)
      ensures size > 0 && err == None ==> Fuel() < old(Fuel())
    {
      if read >= limit {
        var probe;
        probe, err := reader.Read(1);
        got := [];
        if |probe| > 0 {
          err := Some(TooLarge);
        }
        return;
      }
      var remaining := limit - read;
      var room := if size > remaining then remaining else size;
      got, err := reader.Read(room);
      read := read + |got|;
    }
  }

  /** The number of bytes an upload may have. */
  function Cap(limit: int): nat {
    if limit < 0 then 0 else limit
  }

  /** What draining a stream of the bytes `source` under `limit` may come to. */
  ghost predicate DrainOutcome(source: seq<Byte>, limit: int, body: seq<Byte>, err: Error) {
    match err
    case Eof => body == source && |source| <= Cap(limit)
    case TooLarge => |source| > Cap(limit) && body == source[..Cap(limit)]
    case Broken(_) => body <= source && |body| <= Cap(limit)
  }

  /** The three outcomes exclude each other: only the size decides between success and refusal. */
  lemma SizeDecides(source: seq<Byte>, limit: int, body: seq<Byte>, err: Error)
    requires DrainOutcome(source, limit, body, err) && !err.Broken?
    ensures err == Eof <==> |source| <= Cap(limit)
    ensures err == TooLarge <==> |source| > Cap(limit)
    ensures body == if |source| <= Cap(limit) then source else source[..Cap(limit)]
  {
  }

  /** The read that returns the error decides the outcome of the whole. */
  lemma LastRead(source: seq<Byte>, limit: int, body: seq<Byte>, rest: seq<Byte>, got: seq<Byte>, after: seq<Byte>,
                 err: Error)
    requires source == body + rest && |body| + |got| <= Cap(limit)
    requires err == TooLarge ==> |body| >= limit && got == [] && rest != []
    requires err != TooLarge ==> rest == got + after
    requires err == Eof ==> after == []
    ensures DrainOutcome(source, limit, body + got, err)
  {
    match err
    case Eof => assert got + after == got;
    case TooLarge => assert body + got == body && source[..|body|] == body;
    case Broken(_) => assert source == (body + got) + after;
  }

  lemma MoveOver(source: seq<Byte>, body: seq<Byte>, rest: seq<Byte>, got: seq<Byte>, after: seq<Byte>)
    requires source == body + rest && rest == got + after
    ensures source == body + got + after
  {
  }

  /** Read with buffers of any size until the first error. */
  method Drain(r: SizeLimitedReader) returns (body: seq<Byte>, err: Error)
    requires r.Valid() && r.read == 0
    modifies r, r.reader, r.reader.part
    ensures DrainOutcome(old(r.reader.Rest()), r.limit, body, err)
    ensures r.reader.part.reliable ==> !err.Broken?
  {
    ghost var source, rest := r.reader.Rest(), r.reader.Rest();
    body := [];
    while true
      invariant r.Valid()
      invariant rest == r.reader.Rest() && source == body + rest
      invariant r.read == |body| <= Cap(r.limit)
      decreases r.Fuel()
    {
      var size: nat :| size > 0;
      var got, e := r.Read(size);
      if e.Some? {
        LastRead(source, r.limit, body, rest, got, r.reader.Rest(), e.value);
        return body + got, e.value;
      }
      MoveOver(source, body, rest, got, r.reader.Rest());
      rest := r.reader.Rest();
      body := body + got;
    }
  }

  /** `io.ReadFull` into the sniffing buffer; a short part is not an error, a broken one is. */
  method SniffHeader(part: Part) returns (header: seq<Byte>, ok: bool)
    requires part.Valid()
    modifies part
    ensures part.Valid()
    ensures old(part.Rest()) == header + part.Rest()
    ensures |header| <= 512
    ensures ok ==> |header| == 512 || part.Rest() == []
    ensures part.reliable ==> ok
  {
    ghost var source, rest := part.Rest(), part.Rest();
    header := [];
    var err: Option<Error> := None;
    while |header| < HEADER_SIZE && err == None
      invariant part.Valid()
      invariant rest == part.Rest() && source == header + rest
      invariant |header| <= HEADER_SIZE
      invariant err == Some(Eof) ==> part.Rest() == []
      invariant err != Some(TooLarge) && (part.reliable ==> !BreaksWith(err))
      decreases if err == None then 1 else 0, |part.Rest()| + part.stalls
    {
      var got;
      got, err := part.Read(HEADER_SIZE - |header|);
      MoveOver(source, header, rest, got, part.Rest());
      rest := part.Rest();
      header := header + got;
    }
    ok := |header| >= HEADER_SIZE || err == Some(Eof);
  }

  // ---------- the upload ----------

  /** What sniffing makes of a header. */
  datatype Detected = Video | OctetStream | Other

  datatype Upload = Stored | InvalidVideoType | UploadTooLarge | UploadFailed

  /** The bytes that sniffing gets to see. */
  function Header(source: seq<Byte>): seq<Byte> {
    if |source| < HEADER_SIZE then source else source[..HEADER_SIZE]
  }

  /** A detected video, or a declared one whose bytes say nothing. */
  predicate Acceptable(detected: Detected, declaredVideo: bool) {
    detected == Video || (declaredVideo && detected == OctetStream)
  }

  /** The bucket. Unless it is `reliable`, puts and removals may fail. */
  class ObjectStore {
    const reliable: bool
    var objects: map<string, seq<Byte>>

    constructor (reliable: bool)
      ensures this.reliable == reliable && objects == map[]
    {
      this.reliable, this.objects := reliable, map[];
    }

    /** Drains the reader; a put that fails may leave a partial object behind. */
    method PutObject(key: string, body: SizeLimitedReader) returns (err: Option<Error>)
      requires body.Valid() && body.read == 0
      modifies this, body, body.reader, body.reader.part
      ensures objects - {key} == old(objects) - {key}
      ensures err == None ==> DrainOutcome(old(body.reader.Rest()), body.limit, old(body.reader.Rest()), Eof)
                              && objects == old(objects)[key := old(body.reader.Rest())]
      ensures err.Some? ==> err.value != Eof
      ensures err == Some(TooLarge) ==> |old(body.reader.Rest())| > Cap(body.limit)
      ensures reliable && body.reader.part.reliable ==> !BreaksWith(err)
    {
      var data, end := Drain(body);
      var fails: bool :| true;
      var leaves: bool :| true;
      if end != Eof {
        err := Some(end);
      } else if fails && !reliable {
        err := Some(Broken("storage unavailable"));
      } else {
        err := None;
      }
      if err == None || leaves {
        objects := objects[key := data];
      }
    }

    method RemoveObject(key: string)
      modifies this
      ensures objects - {key} == old(objects) - {key}
      ensures reliable ==> objects == old(objects) - {key}
    {
      var fails: bool :| true;
      if reliable || !fails {
        objects := objects - {key};
      }
    }
  }

  /** What an upload of the bytes `source` comes to when neither connection nor store fails. */
  function UploadResult(source: seq<Byte>, acceptable: bool, limit: int): Upload {
    if !acceptable then InvalidVideoType
    else if |source| > Cap(limit) then UploadTooLarge
    else Stored
  }

  lemma HeaderIsPrefix(source: seq<Byte>, header: seq<Byte>, rest: seq<Byte>)
    requires source == header + rest && |header| <= HEADER_SIZE && (|header| == HEADER_SIZE || rest == [])
    ensures header == Header(source)
  {
  }

  /**
   For any chunking of the part, any buffer sizes of the store and any sniffing function: an
   upload is stored only if its header is acceptable and its size fits, and then the object holds
   exactly the uploaded bytes, header included once; no other object changes; a refused type
   leaves the store as it was, and any later error removes the object again. Without failures of
   connection and store, header and size alone decide.
   */
  method StoreUpload(part: Part, detect: seq<Byte> -> Detected, declaredVideo: bool, store: ObjectStore, key: string,
                     limit: int)
    returns (r: Upload)
    requires part.Valid()
    modifies part, store
    ensures store.objects - {key} == old(store.objects) - {key}
    ensures var source := old(part.Rest());
            var detected := detect(if |source| < 512 then source else source[..512]);
            var acceptable := detected == Video || (declaredVideo && detected == OctetStream);
            && (r == Stored ==>
                  acceptable && |source| <= Cap(limit) && store.objects == old(store.objects)[key := source])
            && (r == InvalidVideoType ==> !acceptable && store.objects == old(store.objects))
            && (r == UploadTooLarge ==> acceptable && |source| > Cap(limit))
            && (r == UploadTooLarge && store.reliable ==> key !in store.objects)
            && (r == UploadFailed && store.reliable ==>
                  store.objects == old(store.objects) || key !in store.objects)
            && (part.reliable && store.reliable ==> r == UploadResult(source, acceptable, limit))
  {
    ghost var source := part.Rest();
    var header, ok := SniffHeader(part);
    if !ok {
      return UploadFailed;
    }
    HeaderIsPrefix(source, header, part.Rest());
    if !Acceptable(detect(header), declaredVideo) {
      return InvalidVideoType;
    }
    var multi := new MultiReader(header, part);
    var limited := new SizeLimitedReader(multi, limit);
    var err := store.PutObject(key, limited);
    if err == None {
      return Stored;
    }
    store.RemoveObject(key);
    r := if err == Some(TooLarge) then UploadTooLarge else UploadFailed;
  }
}
