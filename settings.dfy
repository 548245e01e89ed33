/**
 * Per-user preferences, `context.user_data`: the keys 'quality' and 'format'
 * are absent until a picker commits them, and reads fall back to defaults.
 */
module Settings {
  import opened Wrappers

  datatype Prefs = Prefs(quality: Option<string>, format: Option<string>)

  /** A user_data dictionary that holds neither key. */
  const Unset := Prefs(None, None)

  const DefaultSize := "auto"
  const HdSize := "4k"
  const DefaultFormat := "png"
  const HdToken := "hd"

  /** `user_data.get('quality', 'auto')`: the size parameter sent to the service. */
  function OutputSize(p: Prefs): (size: string)
    ensures p.quality.None? ==> size == DefaultSize
    ensures p.quality.Some? ==> size == p.quality.value
  {
    p.quality.GetOr(DefaultSize)
  }

  /** `user_data.get('format', 'png')`: the format parameter sent to the service. */
  function OutputFormat(p: Prefs): (format: string)
    ensures p.format.None? ==> format == DefaultFormat
    ensures p.format.Some? ==> format == p.format.value
  {
    p.format.GetOr(DefaultFormat)
  }

  /** What quality_choice stores for a callback token: only 'hd' selects the 4K size. */
  function QualityValue(token: string): (size: string)
    ensures size == HdSize <==> token == HdToken
    ensures size == HdSize || size == DefaultSize
  {
    if token == HdToken then HdSize else DefaultSize
  }

  /** The label quality_choice echoes back; it names the size that is stored. */
  function QualityLabel(token: string): (name: string)
    ensures name == "HD (4K)" || name == "Standard"
    ensures name == "HD (4K)" <==> QualityValue(token) == HdSize
  {
    if token == HdToken then "HD (4K)" else "Standard"
  }

  /** `str.upper()` on the ASCII letters. */
  function AsciiUpper(s: string): (r: string)
    ensures |r| == |s|
    ensures forall i :: 0 <= i < |s| ==> ('a' <= s[i] <= 'z' ==> r[i] as int == s[i] as int - 32)
    ensures forall i :: 0 <= i < |s| ==> !('a' <= s[i] <= 'z') ==> r[i] == s[i]
  {
    seq(|s|, i requires 0 <= i < |s| => if 'a' <= s[i] <= 'z' then (s[i] as int - 32) as char else s[i])
  }

  /** quality_choice's write: set 'quality', leave 'format' as it was. */
  function ChooseQuality(p: Prefs, token: string): (r: Prefs)
    ensures r.format == p.format
    ensures r.quality.Some? && r.quality.value == QualityValue(token)
  {
    p.(quality := Some(QualityValue(token)))
  }

  /** format_choice's write: the token verbatim into 'format', leave 'quality' as it was. */
  function ChooseFormat(p: Prefs, token: string): (r: Prefs)
    ensures r.quality == p.quality
    ensures r.format == Some(token)
  {
    p.(format := Some(token))
  }

  /** The only sizes quality_choice ever stores. */
  predicate KnownQuality(p: Prefs) {
    p.quality.None? || p.quality.value == DefaultSize || p.quality.value == HdSize
  }

  /** A user who never chose anything is served with size 'auto' and format 'png'. */
  lemma UnsetResolvesToDefaults()
    ensures OutputSize(Unset) == "auto" && OutputFormat(Unset) == "png"
  {
  }

  /**
   * What a choice changes in the resolved parameters: the quality choice gives
   * '4k' exactly for 'hd' and keeps the format; the format choice gives its
   * token and keeps the size. Both keep the stored quality a known size.
   */
  lemma ChoicesResolve(p: Prefs, token: string)
    ensures OutputSize(ChooseQuality(p, token)) == (if token == "hd" then "4k" else "auto")
    ensures OutputFormat(ChooseQuality(p, token)) == OutputFormat(p)
    ensures OutputFormat(ChooseFormat(p, token)) == token
    ensures OutputSize(ChooseFormat(p, token)) == OutputSize(p)
    ensures KnownQuality(ChooseQuality(p, token))
    ensures KnownQuality(p) ==> KnownQuality(ChooseFormat(p, token))
  {
  }

  /** Under the store's invariant the size sent to the service is one of the two the pickers offer. */
  lemma KnownQualityResolves(p: Prefs)
    requires KnownQuality(p)
    ensures OutputSize(p) == "auto" || OutputSize(p) == "4k"
  {
  }

  /** The user_data dictionaries of all users, keyed by user id. */
  class UserDataStore {
    var userData: map<int, Prefs>

    ghost predicate Valid()
      reads this
    {
      forall id :: id in userData ==> KnownQuality(userData[id])
    }

    constructor ()
      ensures Valid() && userData == map[]
    {
      userData := map[];
    }

    /** The user_data of a user; a user without one reads as empty. */
    function Get(id: int): (p: Prefs)
      reads this
      ensures id !in userData ==> p == Unset
      ensures id in userData ==> p == userData[id]
      ensures Valid() ==> KnownQuality(p)
    {
      if id in userData then userData[id] else Unset
    }

    /** `context.user_data['quality'] = ...` for the callback token. */
    method SetQuality(id: int, token: string)
      requires Valid()
      modifies this
      ensures Valid()
      ensures userData == old(userData)[id := ChooseQuality(old(Get(id)), token)]
    {
      userData := userData[id := ChooseQuality(Get(id), token)];
    }

    /** `context.user_data['format'] = query.data` */
    method SetFormat(id: int, token: string)
      requires Valid()
      modifies this
      ensures Valid()
      ensures userData == old(userData)[id := ChooseFormat(old(Get(id)), token)]
    {
      userData := userData[id := ChooseFormat(Get(id), token)];
    }
  }
}
