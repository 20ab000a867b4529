/**
  The mock session store of the farmer portal: an in-memory user table, the
  current session and the one persisted slot (the browser storage key
  "farmer_connect_user"), with restore-on-start, login, register and logout.
 */
module Auth {
  import opened Wrappers

  /** A farmer's profile as the session holds it: an account without its password. */
  datatype User = User(
    id: string,
    name: string,
    email: string,
    phone: string,
    location: string,
    language: string,
    farmSize: real,
    crops: seq<string>)

  /** An entry of the user table: a profile together with its password. */
  datatype Account = Account(profile: User, password: string)

  /** The argument of register: email and password are required, every other field may be missing. */
  datatype Registration = Registration(
    email: string,
    password: string,
    name: Option<string>,
    phone: Option<string>,
    location: Option<string>,
    language: Option<string>,
    farmSize: Option<real>,
    crops: Option<seq<string>>)

  /** The credential the OTP flow passes once the code has been confirmed. */
  const OtpVerified := "otp_verified"

  /** The three demo accounts the table starts with. */
  const DemoAccounts: seq<Account> := [
    Account(User("1", "राम शर्मा", "ram@farmer.com", "+91-9876543210", "Maharashtra, India", "hindi", 5.5,
                 ["rice", "wheat", "sugarcane"]), "farmer123"),
    Account(User("2", "Priya Nair", "priya@farmer.com", "+91-9876543211", "Kerala, India", "malayalam", 3.2,
                 ["coconut", "pepper", "cardamom"]), "farmer123"),
    Account(User("3", "Harpreet Singh", "harpreet@farmer.com", "+91-9876543212", "Punjab, India", "punjabi", 12.8,
                 ["wheat", "rice", "cotton"]), "farmer123")
  ]

  // ---------------------------------------------------------------------------
  // Table lookups (`dummyUsers.find`)

  /** JavaScript truthiness of an optional string: a missing field and "" are falsy. */
  predicate Truthy(o: Option<string>)
  {
    o.Some? && o.value != ""
  }

  /** What a lookup in the table looks for. */
  datatype Query =
    | EmailOrPhone(identifier: string)
    | EmailAndPassword(identifier: string, password: string)
    | Duplicate(email: string, phone: Option<string>)

  predicate Matches(a: Account, q: Query)
  {
    match q
    case EmailOrPhone(id) => a.profile.email == id || a.profile.phone == id
    case EmailAndPassword(id, pw) => a.profile.email == id && a.password == pw
    case Duplicate(email, phone) => a.profile.email == email || (Truthy(phone) && a.profile.phone == phone.value)
  }

  /** `find`: the index of the first matching account, if any. */
  function Find(accounts: seq<Account>, q: Query): (r: Option<nat>)
    ensures r.Some? ==> r.value < |accounts| && Matches(accounts[r.value], q)
    ensures r.Some? ==> forall j :: 0 <= j < r.value ==> !Matches(accounts[j], q)
    ensures r.None? <==> forall j :: 0 <= j < |accounts| ==> !Matches(accounts[j], q)
  {
    if accounts == [] then None
    else if Matches(accounts[0], q) then Some(0)
    else match Find(accounts[1..], q)
      case Some(k) => Some(k + 1)
      case None => None
  }

  /** The sentinel credential selects the email-or-phone lookup, any other the email-and-password one. */
  function LoginQuery(identifier: string, credential: string): Query
  {
    if credential == OtpVerified then EmailOrPhone(identifier) else EmailAndPassword(identifier, credential)
  }

  /** The profile login activates: the first account that matches, password stripped. */
  function LoginLookup(accounts: seq<Account>, identifier: string, credential: string): (r: Option<User>)
    ensures credential == OtpVerified ==>
              (r.Some? <==> (exists i :: 0 <= i < |accounts| &&
                               (accounts[i].profile.email == identifier || accounts[i].profile.phone == identifier)))
    ensures credential != OtpVerified ==>
              (r.Some? <==> (exists i :: 0 <= i < |accounts| &&
                               accounts[i].profile.email == identifier && accounts[i].password == credential))
    ensures r.Some? ==> (exists i :: 0 <= i < |accounts| && r.value == accounts[i].profile &&
                           Matches(accounts[i], LoginQuery(identifier, credential)) &&
                           forall j :: 0 <= j < i ==> !Matches(accounts[j], LoginQuery(identifier, credential)))
  {
    match Find(accounts, LoginQuery(identifier, credential))
    case Some(i) => Some(accounts[i].profile)
    case None => None
  }

  /** register refuses when an account has the same email, or the same phone when one is given. */
  function RegisterConflict(accounts: seq<Account>, r: Registration): (c: bool)
    ensures c <==> (exists i :: 0 <= i < |accounts| &&
                      (accounts[i].profile.email == r.email || (Truthy(r.phone) && accounts[i].profile.phone == r.phone.value)))
    ensures !Truthy(r.phone) ==> (c <==> exists i :: 0 <= i < |accounts| && accounts[i].profile.email == r.email)
  {
    Find(accounts, Duplicate(r.email, r.phone)).Some?
  }

  // ---------------------------------------------------------------------------
  // The record register creates

  /** `value || default` on an optional string. */
  function OrDefault(o: Option<string>, default: string): string
  {
    if Truthy(o) then o.value else default
  }

  /** The new profile: the supplied fields where they are truthy, the defaults elsewhere. */
  function NewUser(r: Registration, id: string): (u: User)
    ensures u.id == id && u.email == r.email
    ensures Truthy(r.name) ==> u.name == r.name.value
    ensures !Truthy(r.name) ==> u.name == "New Farmer"
    ensures Truthy(r.phone) ==> u.phone == r.phone.value
    ensures !Truthy(r.phone) ==> u.phone == ""
    ensures Truthy(r.location) ==> u.location == r.location.value
    ensures !Truthy(r.location) ==> u.location == "India"
    ensures Truthy(r.language) ==> u.language == r.language.value
    ensures !Truthy(r.language) ==> u.language == "hindi"
    ensures u.farmSize == if r.farmSize.Some? then r.farmSize.value else 0.0
    ensures u.crops == if r.crops.Some? then r.crops.value else []
    ensures u.name != "" && u.location != "" && u.language != ""
  {
    User(id,
         OrDefault(r.name, "New Farmer"),
         r.email,
         OrDefault(r.phone, ""),
         OrDefault(r.location, "India"),
         OrDefault(r.language, "hindi"),
         if r.farmSize.Some? && r.farmSize.value != 0.0 then r.farmSize.value else 0.0,
         if r.crops.Some? then r.crops.value else [])
  }

  /** The table entry register appends: the new profile with the supplied password. */
  function NewAccount(r: Registration, id: string): Account
  {
    Account(NewUser(r, id), r.password)
  }

  // ---------------------------------------------------------------------------
  // Table invariants

  /** No two accounts share an email. */
  ghost predicate UniqueEmails(accounts: seq<Account>)
  {
    forall i, j :: 0 <= i < j < |accounts| ==> accounts[i].profile.email != accounts[j].profile.email
  }

  /** No two accounts share a non-empty phone. */
  ghost predicate UniquePhones(accounts: seq<Account>)
  {
    forall i, j :: 0 <= i < j < |accounts| && accounts[i].profile.phone != "" ==>
      accounts[i].profile.phone != accounts[j].profile.phone
  }

  /** The demo table satisfies both invariants. */
  lemma DemoAccountsUnique()
    ensures UniqueEmails(DemoAccounts) && UniquePhones(DemoAccounts)
  {
  }

  /** A registration that passes the duplicate check keeps emails and non-empty phones unique. */
  lemma {:induction false} RegisterKeepsUnique(accounts: seq<Account>, r: Registration, id: string)
    requires !RegisterConflict(accounts, r)
    ensures UniqueEmails(accounts) ==> UniqueEmails(accounts + [NewAccount(r, id)])
    ensures UniquePhones(accounts) ==> UniquePhones(accounts + [NewAccount(r, id)])
  {
    var t := accounts + [NewAccount(r, id)];
    var n := |accounts|;
    assert forall i :: 0 <= i < n ==> t[i] == accounts[i];
    assert t[n].profile.email == r.email;
    assert forall i :: 0 <= i < n ==> t[i].profile.email != t[n].profile.email;
    assert forall i :: 0 <= i < n && t[i].profile.phone != "" ==> t[i].profile.phone != t[n].profile.phone;
  }

  /** An account register has just added can log in with its email and password ... */
  lemma {:induction false} RegisteredCanLogIn(accounts: seq<Account>, r: Registration, id: string)
    requires !RegisterConflict(accounts, r)
    requires r.password != OtpVerified
    ensures LoginLookup(accounts + [NewAccount(r, id)], r.email, r.password) == Some(NewUser(r, id))
  {
    var t := accounts + [NewAccount(r, id)];
    var q := LoginQuery(r.email, r.password);
    assert forall j :: 0 <= j < |accounts| ==> t[j] == accounts[j] && !Matches(t[j], q);
    assert Matches(t[|accounts|], q);
  }

  /** ... and with its email through the OTP flow, unless an earlier account uses that email as its phone. */
  lemma {:induction false} RegisteredCanLogInByOtp(accounts: seq<Account>, r: Registration, id: string)
    requires !RegisterConflict(accounts, r)
    requires forall j :: 0 <= j < |accounts| ==> accounts[j].profile.phone != r.email
    ensures LoginLookup(accounts + [NewAccount(r, id)], r.email, OtpVerified) == Some(NewUser(r, id))
  {
    var t := accounts + [NewAccount(r, id)];
    var q := LoginQuery(r.email, OtpVerified);
    assert forall j :: 0 <= j < |accounts| ==> t[j] == accounts[j] && !Matches(t[j], q);
    assert Matches(t[|accounts|], q);
  }

  /** The OTP lookup compares phones even when they are empty: an empty identifier finds an
      account that was registered without a phone. */
  lemma EmptyIdentifierFindsPhoneless(accounts: seq<Account>, i: nat)
    requires i < |accounts| && accounts[i].profile.phone == ""
    ensures LoginLookup(accounts, "", OtpVerified).Some?
  {
    assert accounts[i].profile.phone == "";
  }

  // ---------------------------------------------------------------------------
  // The session store

  class SessionStore {
    /** The user table (`dummyUsers`); register appends to it. */
    var accounts: seq<Account>
    /** The current session. */
    var user: Option<User>
    /** The persisted slot under "farmer_connect_user". */
    var stored: Option<User>
    /** True until the restore step has run, and while login or register is in flight. */
    var loading: bool

    /** Before restore there is no session; afterwards the session is the persisted slot. */
    ghost predicate Valid()
      reads this
    {
      (loading ==> user == None) && (!loading ==> user == stored)
    }

    /** `isAuthenticated`. */
    predicate IsAuthenticated()
      reads this
    {
      user.Some?
    }

    /** Mounting the provider: no session yet, loading, and whatever the browser has stored. */
    constructor (initial: seq<Account>, persisted: Option<User>)
      ensures Valid()
      ensures accounts == initial && user == None && stored == persisted && loading
    {
      accounts := initial;
      user := None;
      stored := persisted;
      loading := true;
    }

    /** The mount effect: adopt the persisted profile, if any, without re-checking it. */
    method Restore()
      requires Valid()
      modifies this
      ensures Valid() && !loading
      ensures user == stored && stored == old(stored) && accounts == old(accounts)
      ensures !old(loading) ==> user == old(user)
    {
      if stored.Some? {
        user := stored;
      }
      loading := false;
    }

    /** Log in with an identifier and either the OTP sentinel or a password. */
    method Login(identifier: string, credential: string) returns (ok: bool)
      requires Valid() && !loading
      modifies this
      ensures Valid() && !loading && accounts == old(accounts)
      ensures ok == LoginLookup(accounts, identifier, credential).Some?
      ensures ok ==> user == LoginLookup(accounts, identifier, credential) && stored == user
      ensures !ok ==> user == old(user) && stored == old(stored)
      ensures ok ==> IsAuthenticated()
    {
      loading := true;
      var found := Find(accounts, LoginQuery(identifier, credential));
      if found.Some? {
        var profile := accounts[found.value].profile;
        user := Some(profile);
        stored := Some(profile);
        loading := false;
        return true;
      }
      loading := false;
      return false;
    }

    /** Create an account and log it in, unless its email or given phone is taken. */
    method Register(r: Registration, freshId: string) returns (ok: bool)
      requires Valid() && !loading
      modifies this
      ensures Valid() && !loading
      ensures ok == !RegisterConflict(old(accounts), r)
      ensures ok ==> accounts == old(accounts) + [NewAccount(r, freshId)]
      ensures ok ==> user == Some(NewUser(r, freshId)) && stored == user && IsAuthenticated()
      ensures !ok ==> accounts == old(accounts) && user == old(user) && stored == old(stored)
      ensures UniqueEmails(old(accounts)) ==> UniqueEmails(accounts)
      ensures UniquePhones(old(accounts)) ==> UniquePhones(accounts)
    {
      loading := true;
      var existing := Find(accounts, Duplicate(r.email, r.phone));
      if existing.Some? {
        loading := false;
        return false;
      }
      var newUser := NewUser(r, freshId);
      RegisterKeepsUnique(accounts, r, freshId);
      accounts := accounts + [Account(newUser, r.password)];
      user := Some(newUser);
      stored := Some(newUser);
      loading := false;
      return true;
    }

    /** End the session and clear the persisted slot. */
    method Logout()
      requires Valid()
      modifies this
      ensures Valid() && !IsAuthenticated()
      ensures user == None && stored == None
      ensures accounts == old(accounts) && loading == old(loading)
    {
      user := None;
      stored := None;
    }
  }

  /** A client of the store on the demo table: a demo farmer logs in through the
      OTP flow; a wrong password then changes nothing. */
  method DemoLogin()
  {
    var store := new SessionStore(DemoAccounts, None);
    store.Restore();
    assert !store.IsAuthenticated();
    var ram := DemoAccounts[0];
    assert ram.profile.email == "ram@farmer.com";
    var ok := store.Login("ram@farmer.com", OtpVerified);
    assert ok && store.user == Some(ram.profile);
    forall i | 0 <= i < |DemoAccounts|
      ensures !Matches(DemoAccounts[i], EmailAndPassword("ram@farmer.com", "wrong"))
    {
      assert DemoAccounts[i].password == "farmer123";
    }
    var bad := store.Login("ram@farmer.com", "wrong");
    assert !bad && store.user == Some(ram.profile);
  }

  /** A client of the store on the demo table: a new farmer registers once, is logged
      in, and the same registration a second time is refused. */
  method DemoRegister()
  {
    var store := new SessionStore(DemoAccounts, None);
    store.Restore();
    var r := Registration("new@x.com", OtpVerified, Some("New"), Some("9876500000"), None, None, None, None);
    forall i | 0 <= i < |DemoAccounts|
      ensures !Matches(DemoAccounts[i], Duplicate(r.email, r.phone))
    {
    }
    var first := store.Register(r, "1001");
    assert first && store.IsAuthenticated();
    assert store.accounts[|DemoAccounts|] == NewAccount(r, "1001");
    var second := store.Register(r, "1002");
    assert !second;
  }
}
