/** The states of a durable transfer record. */
module TransferStates {

  datatype State =
    PREPARING | READY | TRANSFERRING | COMMITTING | DATA_COMMITTED | COMPLETED | FAILED_CONFIRMED | CANCELED
}
