/** The VTPass adapter's two static lookup tables: the provider's service
    identifiers by product (`getServiceIDs`) and the product categories
    (`getServiceCategories`). Each table is a fixed object literal; here its
    keys are an enumeration, `Name`/`Key` give the property name a key has in
    the object, and `ServiceId`/`CategoryValue` the string stored under it. */
module VtpassCatalog {
  import opened Results

  /** The keys of `getServiceIDs()`, in the order the object lists them. */
  datatype Service =
    | MtnAirtime | GloAirtime | AirtelAirtime | EtisalatAirtime
    | MtnData | GloData | AirtelData | EtisalatData
    | Ikedc | Ekedc | Aedc | Kedco | Phed | Jed | Eedc
    | Dstv | Gotv | Startimes
    | Smile | Spectranet
    | Waec | Neco | Jamb

  /** The property name a service has in the returned object. */
  function Name(s: Service): string {
    match s
    case MtnAirtime => "MTN_AIRTIME"
    case GloAirtime => "GLO_AIRTIME"
    case AirtelAirtime => "AIRTEL_AIRTIME"
    case EtisalatAirtime => "ETISALAT_AIRTIME"
    case MtnData => "MTN_DATA"
    case GloData => "GLO_DATA"
    case AirtelData => "AIRTEL_DATA"
    case EtisalatData => "ETISALAT_DATA"
    case Ikedc => "IKEDC"
    case Ekedc => "EKEDC"
    case Aedc => "AEDC"
    case Kedco => "KEDCO"
    case Phed => "PHED"
    case Jed => "JED"
    case Eedc => "EEDC"
    case Dstv => "DSTV"
    case Gotv => "GOTV"
    case Startimes => "STARTIMES"
    case Smile => "SMILE"
    case Spectranet => "SPECTRANET"
    case Waec => "WAEC"
    case Neco => "NECO"
    case Jamb => "JAMB"
  }

  /** The VTPass `serviceID` stored under each key. */
  function ServiceId(s: Service): string {
    match s
    case MtnAirtime => "mtn"
    case GloAirtime => "glo"
    case AirtelAirtime => "airtel"
    case EtisalatAirtime => "etisalat"
    case MtnData => "mtn-data"
    case GloData => "glo-data"
    case AirtelData => "airtel-data"
    case EtisalatData => "etisalat-data"
    case Ikedc => "ikeja-electric"
    case Ekedc => "eko-electric"
    case Aedc => "abuja-electric"
    case Kedco => "kano-electric"
    case Phed => "ph-electric"
    case Jed => "jos-electric"
    case Eedc => "enugu-electric"
    case Dstv => "dstv"
    case Gotv => "gotv"
    case Startimes => "startimes"
    case Smile => "smile"
    case Spectranet => "spectranet"
    case Waec => "waec"
    case Neco => "neco"
    case Jamb => "jamb"
  }

  /** The keys of `getServiceCategories()`. */
  datatype Category = Airtime | Data | Electricity | CableTv | Internet | Exams

  function Key(c: Category): string {
    match c
    case Airtime => "AIRTIME"
    case Data => "DATA"
    case Electricity => "ELECTRICITY"
    case CableTv => "CABLE_TV"
    case Internet => "INTERNET"
    case Exams => "EXAMS"
  }

  function CategoryValue(c: Category): string {
    match c
    case Airtime => "airtime"
    case Data => "data"
    case Electricity => "electricity"
    case CableTv => "cable_tv"
    case Internet => "internet"
    case Exams => "exams"
  }

  /** The group each service is listed under in the service table: the groups
      are the six categories. */
  function CategoryOf(s: Service): Category {
    match s
    case MtnAirtime | GloAirtime | AirtelAirtime | EtisalatAirtime => Airtime
    case MtnData | GloData | AirtelData | EtisalatData => Data
    case Ikedc | Ekedc | Aedc | Kedco | Phed | Jed | Eedc => Electricity
    case Dstv | Gotv | Startimes => CableTv
    case Smile | Spectranet => Internet
    case Waec | Neco | Jamb => Exams
  }

  // ---------------------------------------------------------------------------
  // Reading a service back from its identifier

  /** The service a `serviceID` string names, if any: the inverse of the
      service table. */
  function ServiceNamed(id: string): Option<Service> {
    match id
    case "mtn" => Some(MtnAirtime)
    case "glo" => Some(GloAirtime)
    case "airtel" => Some(AirtelAirtime)
    case "etisalat" => Some(EtisalatAirtime)
    case "mtn-data" => Some(MtnData)
    case "glo-data" => Some(GloData)
    case "airtel-data" => Some(AirtelData)
    case "etisalat-data" => Some(EtisalatData)
    case "ikeja-electric" => Some(Ikedc)
    case "eko-electric" => Some(Ekedc)
    case "abuja-electric" => Some(Aedc)
    case "kano-electric" => Some(Kedco)
    case "ph-electric" => Some(Phed)
    case "jos-electric" => Some(Jed)
    case "enugu-electric" => Some(Eedc)
    case "dstv" => Some(Dstv)
    case "gotv" => Some(Gotv)
    case "startimes" => Some(Startimes)
    case "smile" => Some(Smile)
    case "spectranet" => Some(Spectranet)
    case "waec" => Some(Waec)
    case "neco" => Some(Neco)
    case "jamb" => Some(Jamb)
    case _ => None
  }

  /** Whatever it reads back, the table maps to the string read. */
  lemma ServiceNamedSound(id: string)
    ensures ServiceNamed(id).Some? ==> ServiceId(ServiceNamed(id).value) == id
  {
  }

  /** Round trip: every identifier in the table reads back as its own service,
      so no two services share an identifier. */
  lemma ServiceIdRoundTrip(s: Service)
    ensures ServiceNamed(ServiceId(s)) == Some(s)
  {
  }

  lemma ServiceIdsDistinct(s: Service, t: Service)
    ensures ServiceId(s) == ServiceId(t) <==> s == t
  {
    ServiceIdRoundTrip(s);
    ServiceIdRoundTrip(t);
  }

  /** And a string names a service exactly when it is in the table. */
  lemma ServiceNamedExactlyTable(id: string)
    ensures ServiceNamed(id).Some? <==> exists s :: ServiceId(s) == id
  {
    ServiceNamedSound(id);
    if s :| ServiceId(s) == id {
      ServiceIdRoundTrip(s);
    }
  }

  // ---------------------------------------------------------------------------
  // The shape of the tables

  /** `s` ends with `suffix`. */
  predicate EndsWith(s: string, suffix: string) {
    |suffix| <= |s| && forall i :: 0 <= i < |suffix| ==> s[|s| - |suffix| + i] == suffix[i]
  }

  /** Each network's data identifier is its airtime identifier with `-data` appended. */
  function DataFor(s: Service): (d: Service)
    requires CategoryOf(s) == Airtime
    ensures CategoryOf(d) == Data
    ensures ServiceId(d) == ServiceId(s) + "-data"
  {
    match s
    case MtnAirtime => MtnData
    case GloAirtime => GloData
    case AirtelAirtime => AirtelData
    case EtisalatAirtime => EtisalatData
  }

  /** Every data service is some network's, and so the pairing is a bijection. */
  lemma DataServicesPaired(d: Service)
    requires CategoryOf(d) == Data
    ensures exists s :: CategoryOf(s) == Airtime && DataFor(s) == d
  {
    var s := match d
      case MtnData => MtnAirtime
      case GloData => GloAirtime
      case AirtelData => AirtelAirtime
      case EtisalatData => EtisalatAirtime;
    assert CategoryOf(s) == Airtime && DataFor(s) == d;
  }

  /** Every electricity distributor's identifier ends in `-electric`. */
  lemma ElectricIdsEndInElectric(s: Service)
    requires CategoryOf(s) == Electricity
    ensures EndsWith(ServiceId(s), "-electric")
  {
  }

  /** No other service's identifier does. */
  lemma OnlyElectricIdsEndInElectric(s: Service)
    requires CategoryOf(s) != Electricity
    ensures !EndsWith(ServiceId(s), "-electric")
  {
    var id := ServiceId(s);
    if |id| >= |"-electric"| {
      var last := |"-electric"| - 1;
      assert id[|id| - |"-electric"| + last] != "-electric"[last];
    }
  }

  /** The electricity distributors are exactly the services whose identifier
      ends in `-electric`. */
  lemma ElectricityBySuffix(s: Service)
    ensures CategoryOf(s) == Electricity <==> EndsWith(ServiceId(s), "-electric")
  {
    if CategoryOf(s) == Electricity {
      ElectricIdsEndInElectric(s);
    } else {
      OnlyElectricIdsEndInElectric(s);
    }
  }

  /** ASCII upper case, the only letters the category table uses. */
  function UpperChar(c: char): char {
    if 'a' <= c <= 'z' then (c as int - 32) as char else c
  }

  function Upper(s: string): (u: string)
    ensures |u| == |s|
  {
    seq(|s|, i requires 0 <= i < |s| => UpperChar(s[i]))
  }

  /** Each category's value is its key in lower case, so the two columns
      determine each other. */
  lemma CategoryKeyIsUpperValue(c: Category)
    ensures Key(c) == Upper(CategoryValue(c))
  {
  }

  /** No two categories share a value. */
  lemma CategoryValuesDistinct(c: Category, d: Category)
    ensures CategoryValue(c) == CategoryValue(d) <==> c == d
  {
  }

  /** No two services share a property name in the returned object. */
  lemma ServiceNamesDistinct(s: Service, t: Service)
    ensures Name(s) == Name(t) <==> s == t
  {
  }
}
