/**
 * The records the core passes around (app/object.py, app/notification.py:17-26).
 * Dates and times are kept as the ISO strings the store receives.
 */
module Records {
  import opened Wrappers
  import opened Constants

  /**
   * A log event. `func` is the source's `function` field and `logType` its `type`
   * field (both are Dafny keywords). `id` is assigned by the store.
   */
  datatype Log = Log(
    id: Option<int>,
    riskLevel: int,
    logType: int,
    location: string,
    func: string,
    log: string,
    employees: seq<string>,
    date: string,
    time: string,
    count: int)

  /** A message to deliver to a list of employees. */
  datatype Message = Message(title: string, body: string, employees: seq<string>)

  /** A row of the employee contact table; `contactWay` is a bitmask of channels. */
  datatype EmployeeContact = EmployeeContact(
    id: int,
    no: string,
    name: string,
    contactWay: int,
    email: Option<string>,
    phone: Option<string>)

  /** A row of the notification history table, keyed by (log_id, recipient, message). */
  datatype NotificationHistory = NotificationHistory(
    id: Option<int>,
    logId: Option<int>,
    recipient: string,
    message: string,
    status: Status,
    errorMessage: Option<string>,
    retryCount: int,
    sentAt: Option<string>)

  /** One query condition: column, operator code and its values. */
  datatype DBFilter = DBFilter(name: string, operator: string, values: seq<string>)

  /** Python's truthiness of an optional string: present and non-empty. */
  predicate Present(s: Option<string>) {
    s.Some? && s.value != ""
  }
}
