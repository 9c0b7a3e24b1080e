/** Identities of the Hamilton product stated over plain real components.
    A quaternion `(x, y, z, w)` is written as four reals; the `*Poly` lemmas are the
    polynomial identities, and each lemma without that suffix restates one with the
    intermediate results named, which is the shape the quaternion-level proofs need. */
module Hamilton {

  /** `(p * q) * r == p * (q * r)`, component by component. */
  lemma AssociativePoly(px: real, py: real, pz: real, pw: real, qx: real, qy: real, qz: real, qw: real, rx: real, ry: real, rz: real, rw: real)
    ensures (pw * qw - px * qx - py * qy - pz * qz) * rx + (pw * qx + px * qw + py * qz - pz * qy) * rw + (pw * qy - px * qz + py * qw + pz * qx) * rz - (pw * qz + px * qy - py * qx + pz * qw) * ry
         == pw * (qw * rx + qx * rw + qy * rz - qz * ry) + px * (qw * rw - qx * rx - qy * ry - qz * rz) + py * (qw * rz + qx * ry - qy * rx + qz * rw) - pz * (qw * ry - qx * rz + qy * rw + qz * rx)
    ensures (pw * qw - px * qx - py * qy - pz * qz) * ry - (pw * qx + px * qw + py * qz - pz * qy) * rz + (pw * qy - px * qz + py * qw + pz * qx) * rw + (pw * qz + px * qy - py * qx + pz * qw) * rx
         == pw * (qw * ry - qx * rz + qy * rw + qz * rx) - px * (qw * rz + qx * ry - qy * rx + qz * rw) + py * (qw * rw - qx * rx - qy * ry - qz * rz) + pz * (qw * rx + qx * rw + qy * rz - qz * ry)
    ensures (pw * qw - px * qx - py * qy - pz * qz) * rz + (pw * qx + px * qw + py * qz - pz * qy) * ry - (pw * qy - px * qz + py * qw + pz * qx) * rx + (pw * qz + px * qy - py * qx + pz * qw) * rw
         == pw * (qw * rz + qx * ry - qy * rx + qz * rw) + px * (qw * ry - qx * rz + qy * rw + qz * rx) - py * (qw * rx + qx * rw + qy * rz - qz * ry) + pz * (qw * rw - qx * rx - qy * ry - qz * rz)
    ensures (pw * qw - px * qx - py * qy - pz * qz) * rw - (pw * qx + px * qw + py * qz - pz * qy) * rx - (pw * qy - px * qz + py * qw + pz * qx) * ry - (pw * qz + px * qy - py * qx + pz * qw) * rz
         == pw * (qw * rw - qx * rx - qy * ry - qz * rz) - px * (qw * rx + qx * rw + qy * rz - qz * ry) - py * (qw * ry - qx * rz + qy * rw + qz * rx) - pz * (qw * rz + qx * ry - qy * rx + qz * rw)
  {
  }

  /** `(p * q) * r == p * (q * r)`, with `m == p * q` and `n == q * r`. */
  lemma Associative(px: real, py: real, pz: real, pw: real, qx: real, qy: real, qz: real, qw: real, rx: real, ry: real, rz: real, rw: real, mx: real, my: real, mz: real, mw: real, nx: real, ny: real, nz: real, nw: real)
    requires mx == (pw * qx + px * qw + py * qz - pz * qy)
    requires my == (pw * qy - px * qz + py * qw + pz * qx)
    requires mz == (pw * qz + px * qy - py * qx + pz * qw)
    requires mw == (pw * qw - px * qx - py * qy - pz * qz)
    requires nx == (qw * rx + qx * rw + qy * rz - qz * ry)
    requires ny == (qw * ry - qx * rz + qy * rw + qz * rx)
    requires nz == (qw * rz + qx * ry - qy * rx + qz * rw)
    requires nw == (qw * rw - qx * rx - qy * ry - qz * rz)
    ensures mw * rx + mx * rw + my * rz - mz * ry
         == pw * nx + px * nw + py * nz - pz * ny
    ensures mw * ry - mx * rz + my * rw + mz * rx
         == pw * ny - px * nz + py * nw + pz * nx
    ensures mw * rz + mx * ry - my * rx + mz * rw
         == pw * nz + px * ny - py * nx + pz * nw
    ensures mw * rw - mx * rx - my * ry - mz * rz
         == pw * nw - px * nx - py * ny - pz * nz
  {
    AssociativePoly(px, py, pz, pw, qx, qy, qz, qw, rx, ry, rz, rw);
  }

  /** `p * (q k) == (p * q) k`, component by component. */
  lemma ScalesRightPoly(px: real, py: real, pz: real, pw: real, qx: real, qy: real, qz: real, qw: real, k: real)
    ensures pw * (qx * k) + px * (qw * k) + py * (qz * k) - pz * (qy * k)
         == (pw * qx + px * qw + py * qz - pz * qy) * k
    ensures pw * (qy * k) - px * (qz * k) + py * (qw * k) + pz * (qx * k)
         == (pw * qy - px * qz + py * qw + pz * qx) * k
    ensures pw * (qz * k) + px * (qy * k) - py * (qx * k) + pz * (qw * k)
         == (pw * qz + px * qy - py * qx + pz * qw) * k
    ensures pw * (qw * k) - px * (qx * k) - py * (qy * k) - pz * (qz * k)
         == (pw * qw - px * qx - py * qy - pz * qz) * k
  {
  }

  /** `p * (q k) == (p * q) k`, with `s == q k` and `m == p * q`. */
  lemma ScalesRight(px: real, py: real, pz: real, pw: real, qx: real, qy: real, qz: real, qw: real, sx: real, sy: real, sz: real, sw: real, mx: real, my: real, mz: real, mw: real, k: real)
    requires sx == qx * k
    requires sy == qy * k
    requires sz == qz * k
    requires sw == qw * k
    requires mx == (pw * qx + px * qw + py * qz - pz * qy)
    requires my == (pw * qy - px * qz + py * qw + pz * qx)
    requires mz == (pw * qz + px * qy - py * qx + pz * qw)
    requires mw == (pw * qw - px * qx - py * qy - pz * qz)
    ensures pw * sx + px * sw + py * sz - pz * sy
         == mx * k
    ensures pw * sy - px * sz + py * sw + pz * sx
         == my * k
    ensures pw * sz + px * sy - py * sx + pz * sw
         == mz * k
    ensures pw * sw - px * sx - py * sy - pz * sz
         == mw * k
  {
    ScalesRightPoly(px, py, pz, pw, qx, qy, qz, qw, k);
  }

  /** `(p k) * q == (p * q) k`, component by component. */
  lemma ScalesLeftPoly(px: real, py: real, pz: real, pw: real, qx: real, qy: real, qz: real, qw: real, k: real)
    ensures (pw * k) * qx + (px * k) * qw + (py * k) * qz - (pz * k) * qy
         == (pw * qx + px * qw + py * qz - pz * qy) * k
    ensures (pw * k) * qy - (px * k) * qz + (py * k) * qw + (pz * k) * qx
         == (pw * qy - px * qz + py * qw + pz * qx) * k
    ensures (pw * k) * qz + (px * k) * qy - (py * k) * qx + (pz * k) * qw
         == (pw * qz + px * qy - py * qx + pz * qw) * k
    ensures (pw * k) * qw - (px * k) * qx - (py * k) * qy - (pz * k) * qz
         == (pw * qw - px * qx - py * qy - pz * qz) * k
  {
  }

  /** `(p k) * q == (p * q) k`, with `s == p k` and `m == p * q`. */
  lemma ScalesLeft(px: real, py: real, pz: real, pw: real, qx: real, qy: real, qz: real, qw: real, sx: real, sy: real, sz: real, sw: real, mx: real, my: real, mz: real, mw: real, k: real)
    requires sx == px * k
    requires sy == py * k
    requires sz == pz * k
    requires sw == pw * k
    requires mx == (pw * qx + px * qw + py * qz - pz * qy)
    requires my == (pw * qy - px * qz + py * qw + pz * qx)
    requires mz == (pw * qz + px * qy - py * qx + pz * qw)
    requires mw == (pw * qw - px * qx - py * qy - pz * qz)
    ensures sw * qx + sx * qw + sy * qz - sz * qy
         == mx * k
    ensures sw * qy - sx * qz + sy * qw + sz * qx
         == my * k
    ensures sw * qz + sx * qy - sy * qx + sz * qw
         == mz * k
    ensures sw * qw - sx * qx - sy * qy - sz * qz
         == mw * k
  {
    ScalesLeftPoly(px, py, pz, pw, qx, qy, qz, qw, k);
  }

  /** The conjugate of `p * q` is `q̄ * p̄`, component by component. */
  lemma ConjugateOfProductPoly(px: real, py: real, pz: real, pw: real, qx: real, qy: real, qz: real, qw: real)
    ensures -(pw * qx + px * qw + py * qz - pz * qy)
         == qw * (-px) + (-qx) * pw + (-qy) * (-pz) - (-qz) * (-py)
    ensures -(pw * qy - px * qz + py * qw + pz * qx)
         == qw * (-py) - (-qx) * (-pz) + (-qy) * pw + (-qz) * (-px)
    ensures -(pw * qz + px * qy - py * qx + pz * qw)
         == qw * (-pz) + (-qx) * (-py) - (-qy) * (-px) + (-qz) * pw
    ensures pw * qw - px * qx - py * qy - pz * qz
         == qw * pw - (-qx) * (-px) - (-qy) * (-py) - (-qz) * (-pz)
  {
  }

  /** The conjugate of `p * q` is `q̄ * p̄`, with `c == p̄`, `d == q̄` and `m == p * q`. */
  lemma ConjugateOfProduct(px: real, py: real, pz: real, pw: real, qx: real, qy: real, qz: real, qw: real, cx: real, cy: real, cz: real, cw: real, dx: real, dy: real, dz: real, dw: real, mx: real, my: real, mz: real, mw: real)
    requires cx == (-px)
    requires cy == (-py)
    requires cz == (-pz)
    requires cw == pw
    requires dx == (-qx)
    requires dy == (-qy)
    requires dz == (-qz)
    requires dw == qw
    requires mx == (pw * qx + px * qw + py * qz - pz * qy)
    requires my == (pw * qy - px * qz + py * qw + pz * qx)
    requires mz == (pw * qz + px * qy - py * qx + pz * qw)
    requires mw == (pw * qw - px * qx - py * qy - pz * qz)
    ensures -mx
         == dw * cx + dx * cw + dy * cz - dz * cy
    ensures -my
         == dw * cy - dx * cz + dy * cw + dz * cx
    ensures -mz
         == dw * cz + dx * cy - dy * cx + dz * cw
    ensures mw
         == dw * cw - dx * cx - dy * cy - dz * cz
  {
    ConjugateOfProductPoly(px, py, pz, pw, qx, qy, qz, qw);
  }

  /** The scalar part of `(p * (v, 0)) * p̄` is zero. */
  lemma SandwichPurePoly(px: real, py: real, pz: real, pw: real, vx: real, vy: real, vz: real)
    ensures (pw * 0.0 - px * vx - py * vy - pz * vz) * pw - (pw * vx + px * 0.0 + py * vz - pz * vy) * (-px) - (pw * vy - px * vz + py * 0.0 + pz * vx) * (-py) - (pw * vz + px * vy - py * vx + pz * 0.0) * (-pz) == 0.0
  {
  }

  /** `(p * (v, 0)) * p̄` has a zero scalar part, with `m == p * (v, 0)` and `c == p̄`. */
  lemma SandwichPure(px: real, py: real, pz: real, pw: real, mx: real, my: real, mz: real, mw: real, cx: real, cy: real, cz: real, cw: real, vx: real, vy: real, vz: real)
    requires mx == (pw * vx + px * 0.0 + py * vz - pz * vy)
    requires my == (pw * vy - px * vz + py * 0.0 + pz * vx)
    requires mz == (pw * vz + px * vy - py * vx + pz * 0.0)
    requires mw == (pw * 0.0 - px * vx - py * vy - pz * vz)
    requires cx == (-px)
    requires cy == (-py)
    requires cz == (-pz)
    requires cw == pw
    ensures mw * cw - mx * cx - my * cy - mz * cz == 0.0
  {
    SandwichPurePoly(px, py, pz, pw, vx, vy, vz);
  }

  /** `|p * q|² == |p|² |q|²` (Euler's four-square identity). */
  lemma NormMultiplicativePoly(px: real, py: real, pz: real, pw: real, qx: real, qy: real, qz: real, qw: real)
    ensures (pw * qx + px * qw + py * qz - pz * qy) * (pw * qx + px * qw + py * qz - pz * qy) + (pw * qy - px * qz + py * qw + pz * qx) * (pw * qy - px * qz + py * qw + pz * qx) + (pw * qz + px * qy - py * qx + pz * qw) * (pw * qz + px * qy - py * qx + pz * qw) + (pw * qw - px * qx - py * qy - pz * qz) * (pw * qw - px * qx - py * qy - pz * qz)
         == (px * px + py * py + pz * pz + pw * pw) * (qx * qx + qy * qy + qz * qz + qw * qw)
  {
  }

  /** The squared norm of `m == p * q` is the product of the squared norms. */
  lemma NormMultiplicative(px: real, py: real, pz: real, pw: real, qx: real, qy: real, qz: real, qw: real, mx: real, my: real, mz: real, mw: real)
    requires mx == (pw * qx + px * qw + py * qz - pz * qy)
    requires my == (pw * qy - px * qz + py * qw + pz * qx)
    requires mz == (pw * qz + px * qy - py * qx + pz * qw)
    requires mw == (pw * qw - px * qx - py * qy - pz * qz)
    ensures mx * mx + my * my + mz * mz + mw * mw == (px * px + py * py + pz * pz + pw * pw) * (qx * qx + qy * qy + qz * qz + qw * qw)
  {
    NormMultiplicativePoly(px, py, pz, pw, qx, qy, qz, qw);
  }

  /** The squared norm of `s == p k` is `k * k` times that of `p`. */
  lemma NormScales(px: real, py: real, pz: real, pw: real, sx: real, sy: real, sz: real, sw: real, k: real)
    requires sx == px * k
    requires sy == py * k
    requires sz == pz * k
    requires sw == pw * k
    ensures sx * sx + sy * sy + sz * sz + sw * sw == k * k * (px * px + py * py + pz * pz + pw * pw)
  {
    assert sx * sx + sy * sy + sz * sz + sw * sw == ((px * k) * (px * k) + (py * k) * (py * k) + (pz * k) * (pz * k) + (pw * k) * (pw * k));
  }

  /** `p * (q - r) == p * q - p * r`, with `s == q - r`, `m == p * q` and `n == p * r`. */
  lemma SubRight(px: real, py: real, pz: real, pw: real, qx: real, qy: real, qz: real, qw: real, rx: real, ry: real, rz: real, rw: real, sx: real, sy: real, sz: real, sw: real, mx: real, my: real, mz: real, mw: real, nx: real, ny: real, nz: real, nw: real)
    requires sx == qx - rx
    requires sy == qy - ry
    requires sz == qz - rz
    requires sw == qw - rw
    requires mx == (pw * qx + px * qw + py * qz - pz * qy)
    requires my == (pw * qy - px * qz + py * qw + pz * qx)
    requires mz == (pw * qz + px * qy - py * qx + pz * qw)
    requires mw == (pw * qw - px * qx - py * qy - pz * qz)
    requires nx == (pw * rx + px * rw + py * rz - pz * ry)
    requires ny == (pw * ry - px * rz + py * rw + pz * rx)
    requires nz == (pw * rz + px * ry - py * rx + pz * rw)
    requires nw == (pw * rw - px * rx - py * ry - pz * rz)
    ensures pw * sx + px * sw + py * sz - pz * sy
         == mx - nx
    ensures pw * sy - px * sz + py * sw + pz * sx
         == my - ny
    ensures pw * sz + px * sy - py * sx + pz * sw
         == mz - nz
    ensures pw * sw - px * sx - py * sy - pz * sz
         == mw - nw
  {
  }

  /** `(p - q) * r == p * r - q * r`, with `s == p - q`, `m == p * r` and `n == q * r`. */
  lemma SubLeft(px: real, py: real, pz: real, pw: real, qx: real, qy: real, qz: real, qw: real, rx: real, ry: real, rz: real, rw: real, sx: real, sy: real, sz: real, sw: real, mx: real, my: real, mz: real, mw: real, nx: real, ny: real, nz: real, nw: real)
    requires sx == px - qx
    requires sy == py - qy
    requires sz == pz - qz
    requires sw == pw - qw
    requires mx == (pw * rx + px * rw + py * rz - pz * ry)
    requires my == (pw * ry - px * rz + py * rw + pz * rx)
    requires mz == (pw * rz + px * ry - py * rx + pz * rw)
    requires mw == (pw * rw - px * rx - py * ry - pz * rz)
    requires nx == (qw * rx + qx * rw + qy * rz - qz * ry)
    requires ny == (qw * ry - qx * rz + qy * rw + qz * rx)
    requires nz == (qw * rz + qx * ry - qy * rx + qz * rw)
    requires nw == (qw * rw - qx * rx - qy * ry - qz * rz)
    ensures sw * rx + sx * rw + sy * rz - sz * ry
         == mx - nx
    ensures sw * ry - sx * rz + sy * rw + sz * rx
         == my - ny
    ensures sw * rz + sx * ry - sy * rx + sz * rw
         == mz - nz
    ensures sw * rw - sx * rx - sy * ry - sz * rz
         == mw - nw
  {
  }
}
