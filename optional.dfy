/** The nullable handles of the transport core (a shared_ptr that may be null,
    a getenv result that may be absent) are modelled as options. */
module Optional {

  datatype Option<+T> = None | Some(value: T)
}
