/**
 The vocabulary shared by the send path and the provider clients (internal/push), the two
 switches that read it from a request, and the stub used for a platform without credentials.
 */
module Push {

  datatype Option<+T> = None | Some(value: T)

  datatype Platform = IOS | Android

  datatype Kind = MessageKind | MentionKind | CallKind | WakeKind

  // Empty is the zero value of the status string: a slot nobody has filled yet.
  datatype Status = Empty | Delivered | Unregistered | Forbidden | Error | NotAttempted

  type Bytes = seq<bv8>

  datatype Message = Message(token: string, kind: Kind, payload: Bytes)

  datatype Result = Result(token: string, status: Status)

  const UNFILLED := Result("", Empty)

  function PlatformName(p: Platform): string {
    match p
    case IOS => "ios"
    case Android => "android"
  }

  function KindName(k: Kind): string {
    match k
    case MessageKind => "message"
    case MentionKind => "mention"
    case CallKind => "call"
    case WakeKind => "wake"
  }

  // Exactly the two platform names are read, each as itself.
  function ParsePlatform(s: string): (r: Option<Platform>)
    ensures r == Some(IOS) <==> s == "ios"
    ensures r == Some(Android) <==> s == "android"
    ensures forall p :: r == Some(p) <==> s == PlatformName(p)
  {
    if s == "ios" then Some(IOS) else if s == "android" then Some(Android) else None
  }

  // Exactly the four kind names are read, each as itself.
  function ParseKind(s: string): (r: Option<Kind>)
    ensures r == Some(MessageKind) <==> s == "message"
    ensures r == Some(MentionKind) <==> s == "mention"
    ensures r == Some(CallKind) <==> s == "call"
    ensures r == Some(WakeKind) <==> s == "wake"
    ensures forall k :: r == Some(k) <==> s == KindName(k)
  {
    assert "message"[0] != "call"[0] && "message"[1] != "wake"[1] && "message"[2] != "mention"[2];
    assert "mention"[0] != "call"[0] && "mention"[1] != "wake"[1] && "call"[0] != "wake"[0];
    if s == "message" then Some(MessageKind)
    else if s == "mention" then Some(MentionKind)
    else if s == "call" then Some(CallKind)
    else if s == "wake" then Some(WakeKind)
    else None
  }

  // What the pool records for one Send call: the first result's status, or an error when
  // the sender returned nothing.
  function Reported(out: seq<Result>): Status {
    if |out| > 0 then out[0].status else Error
  }

  // The statuses the provider clients and the stub ever return.
  predicate ProviderStatus(s: Status) {
    s == Delivered || s == Unregistered || s == Error
  }

  // What they return for one message: nothing, or a result with such a status first.
  predicate ProviderAnswer(out: seq<Result>) {
    out == [] || ProviderStatus(out[0].status)
  }

  function Rejections(msgs: seq<Message>): (r: seq<Result>)
    ensures |r| == |msgs|
  {
    seq(|msgs|, i requires 0 <= i < |msgs| => Result(msgs[i].token, Error))
  }

  /** The dedupe map one request shares between all its Send calls. */
  class RequestScope {
    var logged: set<Platform>

    constructor ()
      ensures logged == {}
    {
      logged := {};
    }
  }

  /** The stub for a platform without credentials: it rejects everything, and writes one log
      line for the first non-empty call of the platform in a request. */
  class Unconfigured {
    const platform: Platform

    constructor (platform: Platform)
      ensures this.platform == platform
    {
      this.platform := platform;
    }

    method Send(scope: RequestScope?, msgs: seq<Message>) returns (out: seq<Result>, wroteLine: bool)
      modifies scope
      ensures out == Rejections(msgs)
      ensures |out| == |msgs| && forall i :: 0 <= i < |out| ==> out[i] == Result(msgs[i].token, Error)
      ensures wroteLine <==> msgs != [] && (scope == null || platform !in old(scope.logged))
      ensures scope != null ==>
                scope.logged == if msgs != [] then old(scope.logged) + {platform} else old(scope.logged)
    {
      wroteLine := false;
      if |msgs| > 0 {
        wroteLine := LogRejection(scope);
      }
      var results := new Result[|msgs|](_ => UNFILLED);
      for i := 0 to |msgs|
        modifies results
        invariant forall j :: 0 <= j < i ==> results[j] == Result(msgs[j].token, Error)
      {
        results[i] := Result(msgs[i].token, Error);
      }
      out := results[..];
    }

    method LogRejection(scope: RequestScope?) returns (wroteLine: bool)
      modifies scope
      ensures wroteLine <==> scope == null || platform !in old(scope.logged)
      ensures scope != null ==> scope.logged == old(scope.logged) + {platform}
    {
      if scope == null {
        return true;
      }
      var alreadyLogged := platform in scope.logged;
      scope.logged := scope.logged + {platform};
      wroteLine := !alreadyLogged;
    }
  }
}
