/**
 * The notifications the components emit through the toast hook. The hook
 * itself is not modelled; a component's emitted toasts are kept as a log.
 */
module Toasts {

  datatype Toast =
    | LogoutConfirmed                 // "Déconnexion réussie"
    | MissingFields                   // "Veuillez remplir tous les champs" (destructive)
    | LoginSucceeded                  // "Connexion réussie"
    | LoginFailed                     // "Erreur de connexion" (destructive)
    | ReservationConfirmed(date: string, startTime: string, endTime: string)

  /** The toasts shown with the `destructive` variant. */
  predicate Destructive(t: Toast) {
    t.MissingFields? || t.LoginFailed?
  }
}
