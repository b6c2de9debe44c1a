/** The Swiss Knife's persisted form values, and the normalisation that
    refills the fields a tool cannot work without. */
module SwissSettings {
  import opened Strings
  import opened SwissApp

  /** `default_capabilities`. */
  const DefaultCapabilities: string := "/:rw"
  /** `default_storage_path`. */
  const DefaultStoragePath: string := "/pub/"
  /** `default_http_method`. */
  const DefaultHttpMethod: string := "GET"
  /** `default_http_url`. */
  const DefaultHttpUrl: string := "https://"

  /** A field after normalisation: its default when it is blank. */
  function Filled(value: string, default: string): string
  {
    if IsBlank(value) then default else value
  }

  /** The defaults are not blank, so they survive normalisation. */
  lemma DefaultsNotBlank()
    ensures !IsBlank(DefaultCapabilities) && !IsBlank(DefaultStoragePath)
    ensures !IsBlank(DefaultHttpMethod) && !IsBlank(DefaultHttpUrl)
  {
    assert DefaultCapabilities[0] in Trim(DefaultCapabilities) by {
      TrimPadded([], DefaultCapabilities, []);
    }
    assert DefaultStoragePath[0] in Trim(DefaultStoragePath) by {
      TrimPadded([], DefaultStoragePath, []);
    }
    assert DefaultHttpMethod[0] in Trim(DefaultHttpMethod) by {
      TrimPadded([], DefaultHttpMethod, []);
    }
    assert DefaultHttpUrl[0] in Trim(DefaultHttpUrl) by {
      TrimPadded([], DefaultHttpUrl, []);
    }
  }

  /** Filling with a non-blank default: the field ends non-blank, a
      non-blank value is kept as it is, and filling again changes nothing. */
  lemma FilledProperties(value: string, default: string)
    requires !IsBlank(default)
    ensures !IsBlank(Filled(value, default))
    ensures !IsBlank(value) ==> Filled(value, default) == value
    ensures Filled(Filled(value, default), default) == Filled(value, default)
  {
  }

  /** The five fields `normalize` refills, none of them blank. */
  predicate NormalFields(token: string, auth: string, path: string, verb: string, url: string)
  {
    !IsBlank(token) && !IsBlank(auth) && !IsBlank(path) && !IsBlank(verb) && !IsBlank(url)
  }

  /** Refilling the five fields leaves none blank, and changes none that
      was not blank. */
  lemma RefillFacts(token: string, auth: string, path: string, verb: string, url: string)
    ensures NormalFields(Filled(token, DefaultCapabilities), Filled(auth, DefaultCapabilities),
                         Filled(path, DefaultStoragePath), Filled(verb, DefaultHttpMethod),
                         Filled(url, DefaultHttpUrl))
    ensures NormalFields(token, auth, path, verb, url) ==>
              Filled(token, DefaultCapabilities) == token && Filled(auth, DefaultCapabilities) == auth
              && Filled(path, DefaultStoragePath) == path && Filled(verb, DefaultHttpMethod) == verb
              && Filled(url, DefaultHttpUrl) == url
  {
    DefaultsNotBlank();
    FilledProperties(token, DefaultCapabilities);
    FilledProperties(auth, DefaultCapabilities);
    FilledProperties(path, DefaultStoragePath);
    FilledProperties(verb, DefaultHttpMethod);
    FilledProperties(url, DefaultHttpUrl);
  }

  /** `AppSettings`: the values every tool form starts from. */
  class AppSettings {
    var networkMode: NetworkMode
    var homeserver: string
    var signupCode: string
    var tokenCapabilities: string
    var authCapabilities: string
    var authRelay: string
    var authRequest: string
    var storagePath: string
    var storageBody: string
    var publicResource: string
    var httpMethod: string
    var httpUrl: string
    var httpHeaders: string
    var httpBody: string

    /** The network and the eight text fields `normalize` leaves alone. */
    ghost function Untouched(): (NetworkMode, seq<string>)
      reads this
    {
      (networkMode, [homeserver, signupCode, authRelay, authRequest, storageBody, publicResource,
                     httpHeaders, httpBody])
    }

    /** The five fields `normalize` refills are all non-blank. */
    ghost predicate Normalized()
      reads this
    {
      NormalFields(tokenCapabilities, authCapabilities, storagePath, httpMethod, httpUrl)
    }

    /** `AppSettings::default`: Mainnet, the four defaults, every other
        string empty; already normalised. */
    constructor Default()
      ensures networkMode == Mainnet
      ensures tokenCapabilities == DefaultCapabilities && authCapabilities == DefaultCapabilities
      ensures storagePath == DefaultStoragePath
      ensures httpMethod == DefaultHttpMethod && httpUrl == DefaultHttpUrl
      ensures homeserver == [] && signupCode == [] && authRelay == [] && authRequest == []
      ensures storageBody == [] && publicResource == [] && httpHeaders == [] && httpBody == []
      ensures Normalized()
    {
      networkMode := Mainnet;
      homeserver := [];
      signupCode := [];
      tokenCapabilities := DefaultCapabilities;
      authCapabilities := DefaultCapabilities;
      authRelay := [];
      authRequest := [];
      storagePath := DefaultStoragePath;
      storageBody := [];
      publicResource := [];
      httpMethod := DefaultHttpMethod;
      httpUrl := DefaultHttpUrl;
      httpHeaders := [];
      httpBody := [];
      DefaultsNotBlank();
    }

    /** `normalize`: refill each of the five fields whose trimmed value is
        empty; the other nine fields are untouched. On normalised settings
        (the defaults among them) it changes nothing. */
    method Normalize()
      modifies this
      ensures tokenCapabilities == Filled(old(tokenCapabilities), DefaultCapabilities)
      ensures authCapabilities == Filled(old(authCapabilities), DefaultCapabilities)
      ensures storagePath == Filled(old(storagePath), DefaultStoragePath)
      ensures httpMethod == Filled(old(httpMethod), DefaultHttpMethod)
      ensures httpUrl == Filled(old(httpUrl), DefaultHttpUrl)
      ensures Normalized()
      ensures old(Normalized()) ==>
                (tokenCapabilities == old(tokenCapabilities) && authCapabilities == old(authCapabilities)
                 && storagePath == old(storagePath) && httpMethod == old(httpMethod)
                 && httpUrl == old(httpUrl))
      ensures Untouched() == old(Untouched())
    {
      tokenCapabilities := Filled(tokenCapabilities, DefaultCapabilities);
      authCapabilities := Filled(authCapabilities, DefaultCapabilities);
      storagePath := Filled(storagePath, DefaultStoragePath);
      httpMethod := Filled(httpMethod, DefaultHttpMethod);
      httpUrl := Filled(httpUrl, DefaultHttpUrl);
      RefillFacts(old(tokenCapabilities), old(authCapabilities), old(storagePath), old(httpMethod), old(httpUrl));
    }
  }
}
