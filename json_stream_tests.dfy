/**
 * The framer's test scenarios, each driving a `JsonStream` over a
 * `MockedStreamReader` and stating the answers of its successive calls.
 */
module JsonStreamTests {
  import opened Wrappers
  import opened Framing
  import opened JsonStreaming

  const ObjectA: string := "{\"a\":1}"
  const ObjectB: string := "{\"b\":2}"
  const PartialA: string := "{\"a\":1"

  /**
   * Chunk size of the scenarios that do not set one. Its value does not
   * matter: `MockedStreamReader.Read` ignores the size it is asked for.
   */
  const DefaultBufferSize: nat := 4096

  lemma PendingOneChunk(c: string)
    ensures Pending([], [c]) == c
  {
    assert [c][1..] == [];
    assert Concat([c]) == c + Concat([]) == c + [];
    assert [] + (c + []) == c;
  }

  lemma FixtureEnds()
    ensures FirstObjectEnd(ObjectA) == Some(7)
    ensures FirstObjectEnd(ObjectB) == Some(7)
    ensures FirstObjectEnd(PartialA) == None
    ensures FirstObjectEnd(ObjectA + PartialA) == Some(7)
    ensures FirstObjectEnd(ObjectA + ObjectB) == Some(7)
  {
    assert Flat(ObjectA);
    assert Flat(ObjectB);
    FlatObjectEnd(ObjectA);
    FlatObjectEnd(ObjectB);
    NoCloseNoObject(PartialA);
    FirstObjectEndExtends(ObjectA, PartialA);
    FirstObjectEndExtends(ObjectA, ObjectB);
  }

  /** A call when the whole pending text starts with a complete object `k` long. */
  lemma PullAnswers(buffer: string, chunks: seq<string>, k: nat)
    requires FirstObjectEnd(Pending(buffer, chunks)) == Some(k)
    ensures var o := Pull(buffer, chunks);
            o.result == Some(Pending(buffer, chunks)[..k]) &&
            Pending(o.buffer, o.chunks) == Pending(buffer, chunks)[k..]
  {
    PullConsumesPrefix(buffer, chunks);
  }

  /** A call when nothing pending completes an object. */
  lemma PullDrains(buffer: string, chunks: seq<string>)
    requires FirstObjectEnd(Pending(buffer, chunks)) == None
    ensures Pull(buffer, chunks) == Outcome(None, Pending(buffer, chunks), [])
  {
    PullConsumesPrefix(buffer, chunks);
  }

  method ReadFromEmptySourceGivesNone() returns (first: Option<string>)
    ensures first == None
  {
    var socket := new MockedStreamReader([]);
    var stream := new JsonStream(socket, DefaultBufferSize);
    first := stream.ReadJsonObject();
  }

  method ReadOneObject() returns (first: Option<string>)
    ensures first == Some(ObjectA)
  {
    var socket := new MockedStreamReader([ObjectA]);
    var stream := new JsonStream(socket, DefaultBufferSize);
    first := stream.ReadJsonObject();
    FixtureEnds();
    PendingOneChunk(ObjectA);
    PullAnswers([], [ObjectA], 7);
    assert ObjectA[..7] == ObjectA;
  }

  method ReadOneObjectTwice() returns (first: Option<string>, second: Option<string>)
    ensures first == Some(ObjectA) && second == None
  {
    var socket := new MockedStreamReader([ObjectA]);
    var stream := new JsonStream(socket, DefaultBufferSize);
    first := stream.ReadJsonObject();
    FixtureEnds();
    PendingOneChunk(ObjectA);
    PullAnswers([], [ObjectA], 7);
    assert ObjectA[..7] == ObjectA && ObjectA[7..] == [];
    second := stream.ReadJsonObject();
  }

  method ReadIncompleteObjectGivesNone() returns (first: Option<string>)
    ensures first == None
  {
    var socket := new MockedStreamReader([PartialA]);
    var stream := new JsonStream(socket, DefaultBufferSize);
    first := stream.ReadJsonObject();
    FixtureEnds();
    PendingOneChunk(PartialA);
    PullDrains([], [PartialA]);
  }

  /** The partial tail is kept in the buffer and never answered. */
  method ReadCompleteThenIncomplete() returns (first: Option<string>, second: Option<string>, kept: string)
    ensures first == Some(ObjectA) && second == None && kept == PartialA
  {
    var socket := new MockedStreamReader([ObjectA + PartialA]);
    var stream := new JsonStream(socket, DefaultBufferSize);
    first := stream.ReadJsonObject();
    FixtureEnds();
    PendingOneChunk(ObjectA + PartialA);
    PullAnswers([], [ObjectA + PartialA], 7);
    assert (ObjectA + PartialA)[..7] == ObjectA && (ObjectA + PartialA)[7..] == PartialA;
    ghost var b, cs := stream.buffer, socket.messageList;
    second := stream.ReadJsonObject();
    PullDrains(b, cs);
    kept := stream.buffer;
  }

  method ReadTwoObjectsFromOneChunk() returns (first: Option<string>, second: Option<string>, third: Option<string>)
    ensures first == Some(ObjectA) && second == Some(ObjectB) && third == None
  {
    var socket := new MockedStreamReader([ObjectA + ObjectB]);
    var stream := new JsonStream(socket, DefaultBufferSize);
    first := stream.ReadJsonObject();
    FixtureEnds();
    PendingOneChunk(ObjectA + ObjectB);
    PullAnswers([], [ObjectA + ObjectB], 7);
    assert (ObjectA + ObjectB)[..7] == ObjectA && (ObjectA + ObjectB)[7..] == ObjectB;
    ghost var b, cs := stream.buffer, socket.messageList;
    second := stream.ReadJsonObject();
    PullAnswers(b, cs, 7);
    assert ObjectB[..7] == ObjectB && ObjectB[7..] == [];
    third := stream.ReadJsonObject();
  }

  /** A chunk size two bytes short of the object still yields it whole, once. */
  method ReadObjectBiggerThanBufferSize() returns (first: Option<string>, second: Option<string>)
    ensures first == Some(ObjectA) && second == None
  {
    var socket := new MockedStreamReader([ObjectA]);
    var stream := new JsonStream(socket, |ObjectA| - 2);
    first := stream.ReadJsonObject();
    FixtureEnds();
    PendingOneChunk(ObjectA);
    PullAnswers([], [ObjectA], 7);
    assert ObjectA[..7] == ObjectA && ObjectA[7..] == [];
    second := stream.ReadJsonObject();
  }

  /**
   * A stray `}` leaves the depth one lower for the rest of the stream: a
   * flat object after it is never answered and stays buffered.
   */
  lemma UnmatchedCloseFlat()
    ensures FirstObjectEnd("}{}") == None
    ensures Pull("}", ["{}"]) == Outcome(None, "}{}", [])
  {
    var s := "}{}";
    DepthStep(s, 0); DepthStep(s, 1); DepthStep(s, 2);
    assert s[..0] == [];
    assert !ClosesAt(s, 1) && !ClosesAt(s, 2) && !ClosesAt(s, 3);
    assert Pending("}", ["{}"]) == s by {
      assert ["{}"][1..] == [];
      assert Concat(["{}"]) == "{}" + Concat([]);
    }
    PullDrains("}", ["{}"]);
  }

  lemma StrayCloseAlone()
    ensures FirstObjectEnd("}") == None
  {
    DepthStep("}", 0);
    assert "}"[..0] == [] && "}"[..1] == "}";
  }

  lemma StrayCloseThenNested()
    ensures FirstObjectEnd("}{{}") == Some(4)
  {
    var s := "}{{}";
    DepthStep(s, 0); DepthStep(s, 1); DepthStep(s, 2); DepthStep(s, 3);
    assert s[..0] == [] && s[..4] == s;
    assert !ClosesAt(s, 1) && !ClosesAt(s, 2) && !ClosesAt(s, 3) && ClosesAt(s, 4);
  }

  /**
   * After a stray `}` a nested object is cut at its inner `}`: the answer
   * starts with the stray `}`, is not a JSON object, and the outer `}`
   * stays buffered.
   */
  lemma UnmatchedCloseNested()
    ensures FirstObjectEnd("}{{}") == Some(4)
    ensures Pull("}", ["{{}}"]) == Outcome(Some("}{{}"), "}", [])
  {
    StrayCloseThenNested();
    StrayCloseAlone();
    var n := "}" + "{{}}";
    assert n == "}{{}" + "}";
    FirstObjectEndExtends("}{{}", "}");
    assert ["{{}}"][1..] == [];
    assert Pull("}", ["{{}}"]) == Pull(n, []);
    assert n[..4] == "}{{}" && n[4..] == "}";
  }
}
