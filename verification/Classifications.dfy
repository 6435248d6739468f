/** How an evaluated run is classified. */
module Classifications {
  datatype Classification = Passed | Failed | Invalid
}
