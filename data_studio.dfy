/**
 * The parts of the Looker Studio (Data Studio) request that the connector reads,
 * as plain records.
 */
module DataStudio {

  /** `request.dateRange`: ISO dates, both inclusive. */
  datatype DateRange = DateRange(startDate: string, endDate: string)

  /** `request.configParams`: the values chosen in the configuration form. */
  datatype ConfigParams = ConfigParams(account: string, currencyType: string, attributionWindow: string)

  /** `request`: the requested field names in order, the configuration and the date range. */
  datatype Request = Request(fields: seq<string>, configParams: ConfigParams, dateRange: DateRange)
}
