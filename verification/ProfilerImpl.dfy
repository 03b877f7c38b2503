/** The class of src/ProfilerImpl.cpp, without its thread. */
module ProfilerImpls {
  import opened ByteOrder
  import opened Wire
  import opened Profiles
  import opened ProfileDatas

  const IDLE: int := -1
  const EDITING: int := -2

  class ProfilerImpl {
    const buffer: array<Byte>
    var profileData: seq<ProfileData>
    var nextProfileData: int

    /** What the sender callback has been given. */
    var sent: seq<seq<Byte>>

    constructor (bufferSize: nat)
      requires bufferSize >= 64
      ensures fresh(buffer) && buffer.Length == bufferSize
      ensures profileData == [] && nextProfileData == IDLE && sent == []
    {
      buffer := new Byte[bufferSize](_ => 0);
      profileData, nextProfileData, sent := [], IDLE, [];
    }

    method AddProfileData(data: ProfileData) returns (ok: bool)
      requires data !in profileData
      modifies this`profileData, this`nextProfileData
      ensures ok == (old(nextProfileData) == IDLE) && nextProfileData == old(nextProfileData)
      ensures profileData == if ok then old(profileData) + [data] else old(profileData)
    {
      if nextProfileData != IDLE { return false; }
      nextProfileData := EDITING;
      profileData := profileData + [data];
      nextProfileData := IDLE;
      return true;
    }

    /** The last object takes the place of the removed one. */
    method RemoveProfileData(data: ProfileData) returns (ok: bool)
      requires forall i, j :: 0 <= i < j < |profileData| ==> profileData[i] != profileData[j]
      modifies this`profileData, this`nextProfileData
      ensures ok == (old(nextProfileData) == IDLE && data in old(profileData)) && nextProfileData == old(nextProfileData)
      ensures multiset(profileData) == if ok then multiset(old(profileData)) - multiset{data} else multiset(old(profileData))
      ensures ok ==> data !in profileData
    {
      if nextProfileData != IDLE { return false; }
      nextProfileData := EDITING;
      var i: nat := 0;
      while i < |profileData| && profileData[i] != data
        invariant i <= |profileData| && forall j :: 0 <= j < i ==> profileData[j] != data
      {
        i := i + 1;
      }
      ok := i < |profileData|;
      if ok {
        ghost var was := profileData;
        var last := |profileData| - 1;
        profileData := profileData[i := profileData[last]][..last];
        SwappedOut(was, i);
        OnlyOnce(was, i);
        assert data in profileData ==> data in multiset(profileData);
      }
      nextProfileData := IDLE;
    }

    /** The inner loop of GatherNSend: the calls of one pass, each packet sent. */
    method SendPass(data: ProfileData, clock: seq<Readings>, ghost was: Profile) returns (ghost pass: seq<seq<Byte>>)
      requires buffer.Length >= 128 && data.Waiting(was, clock)
      modifies buffer, this`sent, data.Parts()
      ensures data.Passed(was, buffer.Length, clock, pass)
      ensures sent == old(sent) + pass
    {
      hide Ready, Finished, PassFrom, PassUnderWay, ProfileData.Valid, ProfileData.View, ProfileData.Parts;
      ghost var c := data.config;
      pass := [];
      data.PartsAre();
      PassStarts(c, was, buffer.Length, clock);
      assert sent + [] == sent;
      var more := true;
      while more
        invariant data.Valid() && PassUnderWay(c, was, buffer.Length, clock, data.View(), pass, more)
        invariant sent == old(sent) + pass
        decreases if more then 1 + Left(data.View()) else 0
      {
        PassStep(c, was, buffer.Length, clock, data.View(), pass);
        var end: nat;
        end, more := data.GatherNSerialize(buffer, buffer.Length, clock);
        sent := sent + [buffer[..end]];
        pass := pass + [buffer[..end]];
      }
      PassEnds(c, was, buffer.Length, clock, data.View(), pass);
    }

    /** No two of the objects share a part. */
    ghost predicate Separate()
      reads this
    {
      && (forall k :: 0 <= k < |profileData| ==> this !in profileData[k].Parts() && buffer !in profileData[k].Parts())
      && (forall j, k :: 0 <= j < k < |profileData| ==> profileData[j].Parts() !! profileData[k].Parts())
    }

    /** The first `n` objects have passed, the others wait. */
    ghost predicate Halfway(n: int, size: nat, clocks: seq<seq<Readings>>, views: seq<Profile>, passes: seq<seq<seq<Byte>>>)
      reads *
    {
      && 0 <= n <= |profileData| == |clocks| == |views| && |passes| == n
      && (forall k :: 0 <= k < n ==> profileData[k].Passed(views[k], size, clocks[k], passes[k]))
      && (forall k :: n <= k < |profileData| ==> profileData[k].Waiting(views[k], clocks[k]))
    }

    /** The outer loop of GatherNSend. */
    method SendAll(clocks: seq<seq<Readings>>, ghost views: seq<Profile>) returns (ghost passes: seq<seq<seq<Byte>>>)
      requires Separate() && buffer.Length >= 128 && nextProfileData == 0
      requires Halfway(0, buffer.Length, clocks, views, [])
      modifies buffer, this`sent, this`nextProfileData, set k, o | 0 <= k < |profileData| && o in profileData[k].Parts() :: o
      ensures Halfway(|profileData|, buffer.Length, clocks, views, passes)
      ensures sent == old(sent) + Flatten(passes)
    {
      hide Flatten, ProfileData.Parts, ProfileData.Waiting, ProfileData.Passed;
      passes := [];
      assert sent + Flatten(passes) == sent by { FlattenNone<seq<Byte>>(); }
      while nextProfileData < |profileData|
        invariant Halfway(nextProfileData, buffer.Length, clocks, views, passes)
        invariant sent == old(sent) + Flatten(passes)
      {
        ghost var pass := SendPass(profileData[nextProfileData], clocks[nextProfileData], views[nextProfileData]);
        forall k | 0 <= k < |profileData| && k != nextProfileData
          ensures if k < nextProfileData then profileData[k].Passed(views[k], buffer.Length, clocks[k], passes[k])
                  else profileData[k].Waiting(views[k], clocks[k])
        {
          profileData[k].PartsAre();
        }
        FlattenAppend(passes, pass);
        passes := passes + [pass];
        nextProfileData := nextProfileData + 1;
      }
    }

    /** A pass of every object, one after the other; `passes` are the packets of each. The objects,
        in states `views`, may be in the middle of a pass when it starts. If a gathering or a change
        is under way already, nothing happens. */
    method GatherNSend(clocks: seq<seq<Readings>>, ghost views: seq<Profile>) returns (ok: bool, ghost passes: seq<seq<seq<Byte>>>)
      requires nextProfileData == IDLE ==>
        Separate() && buffer.Length >= 128 && Halfway(0, buffer.Length, clocks, views, [])
      modifies buffer, this`sent, this`nextProfileData, set k, o | 0 <= k < |profileData| && o in profileData[k].Parts() :: o
      ensures ok == (old(nextProfileData) == IDLE) && nextProfileData == old(nextProfileData)
      ensures ok ==> Halfway(|profileData|, buffer.Length, clocks, views, passes) && sent == old(sent) + Flatten(passes)
      ensures !ok ==> unchanged(this, buffer, set k, o | 0 <= k < |profileData| && o in profileData[k].Parts() :: o)
    {
      hide ProfileData.Waiting, ProfileData.Passed, ProfileData.Parts;
      if nextProfileData != IDLE {
        return false, [];
      }
      nextProfileData := 0;
      forall k | 0 <= k < |profileData| ensures profileData[k].Waiting(views[k], clocks[k]) {
        profileData[k].PartsAre();
      }
      passes := SendAll(clocks, views);
      nextProfileData := IDLE;
      forall k | 0 <= k < |profileData| ensures profileData[k].Passed(views[k], buffer.Length, clocks[k], passes[k]) {
        profileData[k].PartsAre();
      }
      ok := true;
    }
  }

  lemma OnlyOnce<T>(s: seq<T>, i: nat)
    requires i < |s| && forall j, k :: 0 <= j < k < |s| ==> s[j] != s[k]
    ensures multiset(s)[s[i]] == 1
  {
    var before, after := s[..i], s[i + 1..];
    assert s == before + [s[i]] + after;
    assert s[i] !in before && s[i] !in after;
  }

  lemma SwappedOut<T>(s: seq<T>, i: nat)
    requires i < |s|
    ensures multiset(s[i := s[|s| - 1]][..|s| - 1]) == multiset(s) - multiset{s[i]}
  {
    var n := |s| - 1;
    assert s == s[..n] + [s[n]];
    if i < n {
      assert s[..n] == s[..i] + [s[i]] + s[i + 1..n];
      assert s[i := s[n]][..n] == s[..i] + [s[n]] + s[i + 1..n];
    } else {
      assert s[i := s[n]][..n] == s[..n];
    }
  }
}
