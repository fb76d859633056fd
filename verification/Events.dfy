/** The events that handlers append to the outbox, with the payload fields the consumers use. */
module Events {
  import opened Wrappers

  type StationId = string

  datatype Event =
    | TransactionStarted(transactionId: int, sessionId: string, stationId: StationId, connectorId: int,
                         idTag: Option<string>, meterStart: int, timeStart: int, unitPriceVnd: Option<int>)
    | TransactionStopped(transactionId: int, sessionId: string, stationId: StationId, meterStart: int,
                         meterStop: int, totalKwh: real, costVnd: int, unitPrice: int,
                         timeStart: int, timeEnd: int, reason: Option<string>)
    | ConnectorStatusChanged(stationId: StationId, connectorId: int, status: string, errorCode: Option<string>)
    | FaultRaised(stationId: StationId, connectorId: int, fault: string)
    | FaultCleared(stationId: StationId, connectorId: int)
    | StationOnline(stationId: StationId)
    | StationOffline(stationId: StationId)
    | FirmwareStatusChanged(stationId: StationId, firmwareStatus: string)
    | OcppCommandResultReceived(stationId: StationId, messageId: string, resultStatus: string)
}
