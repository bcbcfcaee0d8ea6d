/**
 * The domain vocabulary of the classifier: the scan statuses, the
 * information types and the risk levels, and the records exchanged between
 * the classifier, the services and the stores.
 */
module Domain {
  import opened Wrappers

  /** Identifiers (`uuid.UUID`) are opaque; only equality matters. */
  type Uuid = nat

  /** An instant, in milliseconds; clocks are inputs of the model. */
  type Time = int

  // ---------------------------------------------------------------------
  // Scan status

  datatype ScanStatus = Pending | Running | Completed | Failed | Cancelled
  {
    /** The value stored and shown for this status. */
    function Name(): string
    {
      match this
      case Pending => "pending"
      case Running => "running"
      case Completed => "completed"
      case Failed => "failed"
      case Cancelled => "cancelled"
    }

    /** The three statuses a scan ends in; the result store stamps `completed_at` for them. */
    predicate IsTerminal()
    {
      Completed? || Failed? || Cancelled?
    }

    /** The statuses from which a user may cancel a scan. */
    predicate IsCancellable()
    {
      Pending? || Running?
    }
  }

  const AllScanStatuses: seq<ScanStatus> := [Pending, Running, Completed, Failed, Cancelled]

  function ParseScanStatus(s: string): (r: Option<ScanStatus>)
    ensures r.Some? ==> r.value.Name() == s
  {
    if s == "pending" then Some(Pending)
    else if s == "running" then Some(Running)
    else if s == "completed" then Some(Completed)
    else if s == "failed" then Some(Failed)
    else if s == "cancelled" then Some(Cancelled)
    else None
  }

  /** Exactly five statuses, whose names read back to themselves (so they are distinct). */
  lemma ScanStatusValues(st: ScanStatus)
    ensures |AllScanStatuses| == 5 && st in AllScanStatuses
    ensures ParseScanStatus(st.Name()) == Some(st)
  {
    match st
    case Pending =>
    case Running =>
    case Completed =>
    case Failed =>
    case Cancelled =>
  }

  /** Every status is exactly one of cancellable and terminal. */
  lemma CancellableIsNotTerminal(st: ScanStatus)
    ensures st.IsCancellable() <==> !st.IsTerminal()
  {
  }

  // ---------------------------------------------------------------------
  // Information type

  /**
   * A column category. Go declares it as a string type with the sentinel
   * "N/A" and 18 named constants; a stored pattern or a seed file may carry
   * any other text, and the conversion from a text is the identity.
   */
  type InformationType = string

  const NA: InformationType := "N/A"
  const FirstName: InformationType := "FIRST_NAME"
  const LastName: InformationType := "LAST_NAME"
  const FullName: InformationType := "FULL_NAME"
  const Username: InformationType := "USERNAME"
  const EmailAddress: InformationType := "EMAIL_ADDRESS"
  const PhoneNumber: InformationType := "PHONE_NUMBER"
  const CreditCardNumber: InformationType := "CREDIT_CARD_NUMBER"
  const AccountNumber: InformationType := "ACCOUNT_NUMBER"
  const SSN: InformationType := "SSN"
  const PassportNumber: InformationType := "PASSPORT_NUMBER"
  const IPAddress: InformationType := "IP_ADDRESS"
  const MACAddress: InformationType := "MAC_ADDRESS"
  const Address: InformationType := "ADDRESS"
  const PostalCode: InformationType := "POSTAL_CODE"
  const DateOfBirth: InformationType := "DATE_OF_BIRTH"
  const NationalID: InformationType := "NATIONAL_ID"
  const BankAccount: InformationType := "BANK_ACCOUNT"
  const DriverLicense: InformationType := "DRIVER_LICENSE"

  /** The declared constants, the sentinel first. */
  const DeclaredTypes: seq<InformationType> := [
    NA, FirstName, LastName, FullName, Username, EmailAddress, PhoneNumber,
    CreditCardNumber, AccountNumber, SSN, PassportNumber, IPAddress, MACAddress,
    Address, PostalCode, DateOfBirth, NationalID, BankAccount, DriverLicense
  ]

  /** The sentinel and 18 named constants, no two spelled alike. */
  lemma DeclaredTypesDistinct()
    ensures |DeclaredTypes| == 19 && DeclaredTypes[0] == NA
    ensures forall i, j :: 0 <= i < j < |DeclaredTypes| ==> DeclaredTypes[i] != DeclaredTypes[j]
  {
  }

  // ---------------------------------------------------------------------
  // Risk level

  datatype RiskLevel = Low | Medium | High | Critical
  {
    function Name(): string
    {
      match this
      case Low => "low"
      case Medium => "medium"
      case High => "high"
      case Critical => "critical"
    }
  }

  /** Exactly four risk levels, with distinct names. */
  lemma RiskLevelValues(a: RiskLevel, b: RiskLevel)
    ensures a in [Low, Medium, High, Critical]
    ensures a.Name() == b.Name() ==> a == b
  {
  }

  // ---------------------------------------------------------------------
  // Records

  datatype DatabaseConnection = DatabaseConnection(
    id: Uuid,
    host: string,
    port: int,
    username: string,
    encryptedPassword: string,
    databaseName: string,
    description: string,
    createdAt: Time,
    updatedAt: Time,
    lastScannedAt: Option<Time>,
    isActive: bool)

  datatype CreateDatabaseRequest = CreateDatabaseRequest(
    host: string,
    port: int,
    username: string,
    password: string,
    databaseName: string,
    description: string)
  {
    /** The request-binding rules: required fields present, port in 1..65535. */
    predicate Bound()
    {
      host != "" && username != "" && password != "" && 1 <= port <= 65535
    }
  }

  /** A column as the schema inspector reports it. */
  datatype ColumnInfo = ColumnInfo(
    columnName: string,
    dataType: string,
    isNullable: bool,
    defaultValue: Option<string>,
    columnKey: string)

  /** What classifying one column name yields; the score is in hundredths. */
  datatype Classification = Classification(
    informationType: InformationType,
    confidenceScore: int,
    matchedPatterns: seq<string>)

  /** The answer for a name nothing matched: "N/A", score 0, no patterns. */
  const Unclassified := Classification(NA, 0, [])

  datatype ColumnResult = ColumnResult(
    columnName: string,
    dataType: string,
    informationType: InformationType,
    confidenceScore: int,
    matchedPatterns: seq<string>,
    isNullable: bool,
    defaultValue: Option<string>)

  datatype TableResult = TableResult(tableName: string, columns: seq<ColumnResult>)

  datatype SchemaResult = SchemaResult(schemaName: string, tables: seq<TableResult>)

  /** Totals of one scan; `riskLevel` is `None` while Go's zero value "" is stored. */
  datatype ScanSummary = ScanSummary(
    totalSchemas: int,
    totalTables: int,
    totalColumns: int,
    classifiedColumns: int,
    informationTypesCounts: map<InformationType, int>,
    riskLevel: Option<RiskLevel>,
    durationMilliseconds: int)

  /** The summary a scan starts with: zero counts and an empty count map. */
  const EmptySummary := ScanSummary(0, 0, 0, 0, map[], None, 0)

  datatype ScanResult = ScanResult(
    id: Uuid,
    databaseId: Uuid,
    startedAt: Time,
    completedAt: Option<Time>,
    status: ScanStatus,
    errorMessage: string,
    schemas: seq<SchemaResult>,
    summary: ScanSummary)

  datatype ClassificationPattern = ClassificationPattern(
    id: Uuid,
    informationType: InformationType,
    pattern: string,
    description: string,
    priority: int,
    isActive: bool,
    createdAt: Time,
    updatedAt: Time)

  datatype CreatePatternRequest = CreatePatternRequest(
    informationType: InformationType,
    pattern: string,
    description: string,
    priority: int)
  {
    /** The request-binding rules: required fields present, priority in 1..100. */
    predicate Bound()
    {
      informationType != "" && pattern != "" && description != "" && 1 <= priority <= 100
    }
  }
}
