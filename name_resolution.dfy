/** Resolving a handle (ENS, Lens, Farcaster) or an address to a profile
    through the web3.bio API. The reply of the request is a parameter. */
module NameResolution {
  import opened Common

  datatype Platform = Ens | Lens | Farcaster | Address

  function PlatformName(p: Platform): string {
    match p
    case Ens => "ens"
    case Lens => "lens"
    case Farcaster => "farcaster"
    case Address => "address"
  }

  const ApiBase := "https://api.web3.bio"
  const FailedMessage := "Failed to resolve name"
  const UnresolvedMessage := "Could not resolve name"

  /** The profile the hook exposes; None is JavaScript's null or undefined. */
  datatype ResolvedProfile = ResolvedProfile(
    address: Option<string>,
    displayName: Option<string>,
    avatar: Option<string>,
    platform: Option<string>)

  /** The parsed reply body, as far as the hook looks at it: null, a list of
      profiles, or a single profile object (the four fields it reads). */
  datatype Json = JNull | JArray(items: seq<ResolvedProfile>) | JObject(fields: ResolvedProfile)

  /** What the request did: threw (network failure or a body that is not
      JSON), answered with a non-2xx status, or answered with this body. */
  datatype Reply = RequestThrew | NotOk(status: int) | OkJson(data: Json)

  /** The path under `/ns/`: `{input}` for an address, `{platform}/{input}`
      for a handle. */
  function NsPath(platform: Platform, input: string): string {
    if platform == Address then input else PlatformName(platform) + "/" + input
  }

  /** The URL asked for. */
  function Endpoint(platform: Platform, input: string): string {
    ApiBase + "/ns/" + NsPath(platform, input)
  }

  predicate NoSlash(s: string) {
    forall k | 0 <= k < |s| :: s[k] != '/'
  }

  lemma PrefixKeepsDifference(p: string, a: string, b: string)
    requires a != b
    ensures p + a != p + b
  {
    assert (p + a)[|p|..] == a;
    assert (p + b)[|p|..] == b;
  }

  lemma NsPathsDiffer(p1: Platform, i1: string, p2: Platform, i2: string)
    requires NoSlash(i1) && NoSlash(i2)
    requires p1 != p2 || i1 != i2
    ensures NsPath(p1, i1) != NsPath(p2, i2)
  {
    if p1 == p2 {
      if p1 != Address {
        PrefixKeepsDifference(PlatformName(p1) + "/", i1, i2);
      }
    } else if p1 == Address {
      assert NsPath(p2, i2)[|PlatformName(p2)|] == '/';
      assert |i1| > |PlatformName(p2)| ==> i1[|PlatformName(p2)|] != '/';
    } else if p2 == Address {
      assert NsPath(p1, i1)[|PlatformName(p1)|] == '/';
      assert |i2| > |PlatformName(p1)| ==> i2[|PlatformName(p1)|] != '/';
    } else {
      assert NsPath(p1, i1)[0] == PlatformName(p1)[0];
      assert NsPath(p2, i2)[0] == PlatformName(p2)[0];
    }
  }

  /** Different requests ask for different URLs, as long as the input has no
      slash in it (no address or handle does): the URL tells which platform
      was asked about which name. */
  lemma EndpointDeterminesRequest(p1: Platform, i1: string, p2: Platform, i2: string)
    requires NoSlash(i1) && NoSlash(i2)
    ensures Endpoint(p1, i1) == Endpoint(p2, i2) <==> p1 == p2 && i1 == i2
  {
    if p1 != p2 || i1 != i2 {
      NsPathsDiffer(p1, i1, p2, i2);
      PrefixKeepsDifference(ApiBase + "/ns/", NsPath(p1, i1), NsPath(p2, i2));
    }
  }

  /** The profile shown for a bare address nobody has named. */
  function AddressOnly(input: string): ResolvedProfile {
    ResolvedProfile(Some(input), None, None, None)
  }

  /** The body of a successful reply turned into a profile or an error. An
      address always yields a profile: the first listed one, or the address
      alone. A handle yields a profile labelled with the platform asked
      about, whatever the reply says, unless the body is null. */
  function ProfileFromReply(platform: Platform, input: string, data: Json): (r: Result<ResolvedProfile, string>)
    ensures platform == Address ==> r.Ok?
    ensures platform == Address && data.JArray? && |data.items| > 0 ==> r == Ok(data.items[0])
    ensures platform == Address && !(data.JArray? && |data.items| > 0) ==> r == Ok(AddressOnly(input))
    ensures platform != Address ==> (r.Err? <==> data.JNull?)
    ensures r.Err? ==> r.error == UnresolvedMessage
    ensures platform != Address && r.Ok? ==> r.value.platform == Some(PlatformName(platform))
    ensures platform != Address && data.JObject? ==>
      && r.value.address == data.fields.address
      && r.value.displayName == data.fields.displayName
      && r.value.avatar == data.fields.avatar
    ensures platform != Address && data.JArray? ==>
      r == Ok(ResolvedProfile(None, None, None, Some(PlatformName(platform))))
  {
    if platform == Address then
      if data.JArray? && |data.items| > 0 then Ok(data.items[0])
      else Ok(AddressOnly(input))
    else
      match data
      case JNull => Err(UnresolvedMessage)
      // a list has no address, displayName or avatar property
      case JArray(_) => Ok(ResolvedProfile(None, None, None, Some(PlatformName(platform))))
      case JObject(f) => Ok(ResolvedProfile(f.address, f.displayName, f.avatar, Some(PlatformName(platform))))
  }

  /** The state of `useNameResolution`. */
  class NameResolver {
    var profile: Option<ResolvedProfile>
    var loading: bool
    var error: Option<string>

    constructor ()
      ensures profile == None && !loading && error == None
    {
      profile := None;
      loading := false;
      error := None;
    }

    /** `resolveIdentity` for the current input and platform; `requested` is
        the URL fetched, if any. An empty input clears the profile without a
        request; otherwise the error is cleared, the reply decides the profile
        or the error, and loading ends. A failure keeps the previous profile. */
    method ResolveIdentity(input: string, platform: Platform, reply: Reply) returns (requested: Option<string>)
      modifies this
      ensures input == "" ==>
        requested == None && profile == None && loading == old(loading) && error == old(error)
      ensures input != "" ==> requested == Some(Endpoint(platform, input)) && !loading
      ensures input != "" && !reply.OkJson? ==> error == Some(FailedMessage) && profile == old(profile)
      ensures input != "" && reply.OkJson? ==>
        match ProfileFromReply(platform, input, reply.data)
        case Ok(p) => profile == Some(p) && error == None
        case Err(m) => error == Some(m) && profile == old(profile)
    {
      if input == "" {
        profile := None;
        requested := None;
        return;
      }
      loading := true;
      error := None;
      requested := Some(Endpoint(platform, input));
      match reply {
        case OkJson(data) =>
          match ProfileFromReply(platform, input, data) {
            case Ok(p) => profile := Some(p);
            case Err(m) => error := Some(m);
          }
        case _ =>
          error := Some(FailedMessage);
      }
      loading := false;
    }
  }
}
