/** Participants and researchers: the participant id loop, the device and operating-system
    setters, the password check and the researcher's access credentials. */
module UserModels {
  import opened Wrappers

  /** Candidate participant ids tried before giving up. */
  const PatientIdTries: nat := 20

  /** Operating-system values a participant can hold; '' means none yet. */
  const IosApi := "IOS"
  const AndroidApi := "ANDROID"
  const NullOs := ""

  /** The first of the candidates `draw(k)..draw(tries - 1)` that is not a taken id. */
  function FirstFresh(existing: set<string>, draw: nat -> string, k: nat, tries: nat): (r: Option<nat>)
    ensures r.Some? ==> (k <= r.value < tries && draw(r.value) !in existing
      && forall i :: k <= i < r.value ==> draw(i) in existing)
    ensures r.None? <==> forall i :: k <= i < tries ==> draw(i) in existing
    decreases tries - k
  {
    if k >= tries then None
    else if draw(k) !in existing then Some(k)
    else FirstFresh(existing, draw, k + 1, tries)
  }

  /** The participant id loop of create_with_password: `draw(0)` is the first candidate and
      `draw(k + 1)` the one drawn after the k-th was found taken; after twenty taken
      candidates RuntimeError is raised. */
  method GeneratePatientId(existing: set<string>, draw: nat -> string) returns (r: Result<string, string>)
    ensures r.Ok? ==> r.value !in existing
    ensures r.Ok? <==> FirstFresh(existing, draw, 0, PatientIdTries).Some?
    ensures r.Ok? ==> r.value == draw(FirstFresh(existing, draw, 0, PatientIdTries).value)
  {
    var patientId := draw(0);
    var k := 0;
    while k < PatientIdTries
      invariant 0 <= k <= PatientIdTries
      invariant patientId == draw(k)
      invariant FirstFresh(existing, draw, 0, PatientIdTries) == FirstFresh(existing, draw, k, PatientIdTries)
    {
      if patientId !in existing {
        r := Ok(patientId);
        return;
      }
      patientId := draw(k + 1);
      k := k + 1;
    }
    r := Err("Could not generate unique Patient ID for new Participant.");
  }

  /** A participant. */
  class Participant {
    var patientId: string
    var deviceId: string
    var osType: string
    var studyObjectId: string
    var password: string
    var salt: string

    constructor (patientId: string, studyObjectId: string)
      ensures this.patientId == patientId && this.studyObjectId == studyObjectId
      ensures deviceId == "" && osType == NullOs && password == "" && salt == ""
    {
      this.patientId := patientId;
      this.studyObjectId := studyObjectId;
      deviceId := "";
      osType := NullOs;
      password := "";
      salt := "";
    }

    /** A participant has a registered device when its device id is not empty. */
    predicate Registered()
      reads this
    {
      deviceId != ""
    }

    /** set_password: the hash and salt of the password replace the old ones. */
    method SetPassword(newPassword: string, hashAndSalt: string -> (string, string))
      modifies this
      ensures password == hashAndSalt(newPassword).0 && salt == hashAndSalt(newPassword).1
      ensures patientId == old(patientId) && deviceId == old(deviceId) && osType == old(osType)
      ensures studyObjectId == old(studyObjectId)
    {
      var (h, s) := hashAndSalt(newPassword);
      password := h;
      salt := s;
    }

    /** set_device: only the device id changes. */
    method SetDevice(newDeviceId: string)
      modifies this
      ensures deviceId == newDeviceId
      ensures patientId == old(patientId) && osType == old(osType) && studyObjectId == old(studyObjectId)
      ensures password == old(password) && salt == old(salt)
    {
      deviceId := newDeviceId;
    }

    /** set_os_type: only the operating system changes. */
    method SetOsType(newOsType: string)
      modifies this
      ensures osType == newOsType
      ensures patientId == old(patientId) && deviceId == old(deviceId) && studyObjectId == old(studyObjectId)
      ensures password == old(password) && salt == old(salt)
    {
      osType := newOsType;
    }

    /** clear_device: the device id becomes empty, so the participant is no longer registered. */
    method ClearDevice()
      modifies this
      ensures deviceId == "" && !Registered()
      ensures patientId == old(patientId) && osType == old(osType) && studyObjectId == old(studyObjectId)
      ensures password == old(password) && salt == old(salt)
    {
      deviceId := "";
    }
  }

  /** create_with_password: a fresh id is generated, then a password is drawn and set. The
      generated password is returned with the id. */
  method CreateWithPassword(existing: set<string>, draw: nat -> string, studyObjectId: string,
                            generatedPassword: string, hashAndSalt: string -> (string, string))
    returns (r: Result<(string, string), string>, p: Participant?)
    ensures r.Ok? <==> FirstFresh(existing, draw, 0, PatientIdTries).Some?
    ensures r.Err? ==> p == null
    ensures r.Ok? ==> r.value.0 !in existing && r.value.1 == generatedPassword
    ensures r.Ok? ==> (p != null && fresh(p) && p.patientId == r.value.0 && p.studyObjectId == studyObjectId
      && p.password == hashAndSalt(generatedPassword).0 && p.salt == hashAndSalt(generatedPassword).1
      && !p.Registered())
  {
    var id := GeneratePatientId(existing, draw);
    if id.Err? {
      r, p := Err(id.error), null;
      return;
    }
    p := new Participant(id.value, studyObjectId);
    p.SetPassword(generatedPassword, hashAndSalt);
    r := Ok((id.value, generatedPassword));
  }

  /** The stored password of a researcher. */
  datatype Credentials = Credentials(password: string, salt: string)

  /** check_password: an unknown username is refused without any comparison; a known one
      compares the given password with the stored hash and salt. The second component tells
      whether a comparison took place. */
  function CheckPassword(researchers: map<string, Credentials>, username: string, compareMe: string,
                         comparePassword: (string, string, string) -> bool): (r: (bool, bool))
    ensures r.1 <==> username in researchers
    ensures !r.1 ==> !r.0
    ensures r.1 ==> r.0 == comparePassword(compareMe, researchers[username].salt, researchers[username].password)
  {
    if username !in researchers then (false, false)
    else
      var c := researchers[username];
      (comparePassword(compareMe, c.salt, c.password), true)
  }

  /** Python `s[:n]`: at most the first `n` characters. */
  function Take(s: string, n: nat): (r: string)
    ensures |r| <= n && |r| <= |s| && r == s[..|r|]
    ensures |s| <= n ==> r == s
  {
    if |s| <= n then s else s[..n]
  }

  /** A researcher. */
  class Researcher {
    var username: string
    var admin: bool
    var accessKeyId: string
    var accessKeySecret: string
    var accessKeySecretSalt: string

    constructor (username: string)
      ensures this.username == username && !admin
      ensures accessKeyId == "" && accessKeySecret == "" && accessKeySecretSalt == ""
    {
      this.username := username;
      admin := false;
      accessKeyId := "";
      accessKeySecret := "";
      accessKeySecretSalt := "";
    }

    /** elevate_to_admin. */
    method ElevateToAdmin()
      modifies this
      ensures admin && username == old(username) && accessKeyId == old(accessKeyId)
      ensures accessKeySecret == old(accessKeySecret) && accessKeySecretSalt == old(accessKeySecretSalt)
    {
      admin := true;
    }

    /** reset_access_credentials: two random strings cut to 64 characters become the key and
        the secret; the key is stored as it is, the secret only as its hash and salt. */
    method ResetAccessCredentials(randomKey: string, randomSecret: string, hashAndSalt: string -> (string, string))
      returns (accessKey: string, secretKey: string)
      modifies this
      ensures accessKey == Take(randomKey, 64) && secretKey == Take(randomSecret, 64)
      ensures accessKeyId == accessKey
      ensures accessKeySecret == hashAndSalt(secretKey).0 && accessKeySecretSalt == hashAndSalt(secretKey).1
      ensures username == old(username) && admin == old(admin)
    {
      accessKey := Take(randomKey, 64);
      secretKey := Take(randomSecret, 64);
      var (h, s) := hashAndSalt(secretKey);
      accessKeyId := accessKey;
      accessKeySecret := h;
      accessKeySecretSalt := s;
    }
  }
}
