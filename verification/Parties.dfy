/** The party objects of the three protocols: how a spawned task derives its execution id and takes the receiving
    end of its channel, which it can do once only. */
module Parties {
  import opened Basics
  import opened Orchestration
  import opened ExecutionIds

  /** `messageRx` is the receiving end of a channel, named by the task it was made for. */
  class ProtocolParty {
    const id: u16
    var messageRx: Option<nat>

    constructor (id: u16, messageRx: nat)
      ensures this.id == id && this.messageRx == Some(messageRx)
    {
      this.id := id;
      this.messageRx := Some(messageRx);
    }

    /** None stands for the panic on a receiver that has been taken before. */
    method CreateMpcChannels() returns (incoming: Option<nat>)
      modifies this
      ensures incoming == old(messageRx) && messageRx == None
    {
      incoming := messageRx;
      messageRx := None;
    }

    method GenerateAuxInfo(n: u16, timestamp: u64) returns (eid: Bytes, incoming: Option<nat>)
      modifies this
      ensures Decode(eid) == Some(Fields(NameOf(AuxPhase), n, timestamp))
      ensures incoming == old(messageRx) && messageRx == None
    {
      eid := CreateSharedExecutionId(Ascii(AUX_GEN), n, timestamp);
      incoming := CreateMpcChannels();
    }

    method GenerateKeyShare(n: u16, timestamp: u64) returns (eid: Bytes, incoming: Option<nat>)
      modifies this
      ensures Decode(eid) == Some(Fields(NameOf(KeygenPhase), n, timestamp))
      ensures incoming == old(messageRx) && messageRx == None
    {
      eid := CreateSharedExecutionId(Ascii(KEYGEN), n, timestamp);
      incoming := CreateMpcChannels();
    }

    method SignMessage(signers: seq<u16>, timestamp: u64) returns (eid: Bytes, incoming: Option<nat>)
      modifies this
      ensures Decode(eid) == Some(Fields(NameOf(SigningPhase), Cast(|signers|), timestamp))
      ensures incoming == old(messageRx) && messageRx == None
    {
      eid := CreateSharedExecutionId(Ascii(SIGNING), Cast(|signers|), timestamp);
      incoming := CreateMpcChannels();
    }
  }

  /** The beginning of the spawned task with this job and channel, up to the library call: it derives the job's
      id and always gets its channel, because the handler made the party for this task alone. */
  method StartTask(job: Job, channel: nat) returns (eid: Bytes, incoming: Option<nat>)
    ensures eid == EidOf(job) && incoming == Some(channel)
  {
    var party := new ProtocolParty(job.partyId, channel);
    match job {
      case AuxJob(_, total, timestamp) => eid, incoming := party.GenerateAuxInfo(total, timestamp);
      case KeygenJob(_, total, _, timestamp, _) => eid, incoming := party.GenerateKeyShare(total, timestamp);
      case SigningJob(_, signers, _, timestamp, _, _) => eid, incoming := party.SignMessage(signers, timestamp);
    }
    EncodeOfDecode(eid);
  }
}
